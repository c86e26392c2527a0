/** The adaptive peak scanner of tests/scan_freq.py: per-band peak detection on one
    capture, the stepped scan over center frequencies, and the scan summary. */
module PeakScan {
  import opened Signal

  /** The peak-detection constants (`FFT_CONFIG`). */
  datatype FftConfig = FftConfig(
    fftSize: int,
    minPeakHeight: real,
    peakThresholdDb: real,
    windowSizeDivisor: int,
    minWindowSize: int,
    maxPeaksPerBand: int)

  const DefaultFftConfig: FftConfig := FftConfig(2048, -40.0, 25.0, 100, 5, 10)

  /** `PLUTO_CONFIG['rx_buffer_size']`, the number of samples requested per capture. */
  const RxBufferSize: nat := 8192

  /** Constants under which the detector raises no configuration error: a positive FFT
      size and window divisor, and a cap that is not a negative slice bound. */
  ghost predicate ValidFftConfig(cfg: FftConfig)
  {
    cfg.fftSize >= 1 && cfg.windowSizeDivisor >= 1 && cfg.maxPeaksPerBand >= 0
  }

  /** A detected peak: integer frequency in Hz and power in dB. */
  datatype Peak = Peak(freq: int, power: real)

  // ---------------------------------------------------------------------------
  // Input conditioning, power spectrum and axis

  /** `samples[:min(fft_size, len(samples))]`: the first samples, as many as the FFT
      size allows and the capture holds. */
  function Conditioned(samples: seq<Complex>, cfg: FftConfig): (r: seq<Complex>)
    requires ValidFftConfig(cfg)
    ensures |r| == Min(cfg.fftSize, |samples|)
    ensures r <= samples
  {
    samples[..Min(cfg.fftSize, |samples|)]
  }

  /** `fftshift(20 * log10(abs(fft(x)) / n + 1e-12))`. */
  function PowerSpectrum(num: Numerics, x: seq<Complex>): (r: seq<real>)
    ensures |r| == |x|
  {
    var n := |x|;
    FftShift(seq(n, k requires 0 <= k < n =>
      20.0 * num.log10(num.magnitude(num.dft(x, k)) / n as real + 0.000000000001)))
  }

  /** The signed bin number at position j of numpy's `fftfreq` order:
      0 .. (n-1)//2, then -(n//2) .. -1. */
  function FreqIndex(j: nat, n: nat): int
  {
    if j <= (n - 1) / 2 then j else j - n
  }

  /** The signed bin numbers of `fftfreq` order, position by position. */
  function FreqIndices(n: nat): (r: seq<int>)
    ensures |r| == n
    ensures forall j :: 0 <= j < n ==> r[j] == FreqIndex(j, n)
  {
    seq(n, j requires 0 <= j < n => FreqIndex(j, n))
  }

  /** The signed bin number at position i of the shifted order: the center bin n//2
      reads 0. */
  function ShiftedBin(i: int, n: nat): int
  {
    i - n / 2
  }

  /** Bin numbers times a bin spacing. */
  function ScaledBins(bins: seq<int>, spacing: real): (r: seq<real>)
    ensures |r| == |bins|
  {
    seq(|bins|, j requires 0 <= j < |bins| => bins[j] as real * spacing)
  }

  /** Every frequency moved by the tuned center. */
  function Recentred(freqs: seq<real>, center: real): (r: seq<real>)
    ensures |r| == |freqs|
  {
    seq(|freqs|, j requires 0 <= j < |freqs| => freqs[j] + center)
  }

  /** `numpy.fft.fftfreq(n, 1 / rate)`: bin numbers times the spacing rate / n. */
  function FftFreq(n: nat, rate: int): (r: seq<real>)
    requires n > 0
    ensures |r| == n
  {
    ScaledBins(FreqIndices(n), rate as real / n as real)
  }

  /** `fftshift(fftfreq(n, 1 / rate)) + center`. */
  function ShiftedAxis(n: nat, rate: int, center: int): (r: seq<real>)
    requires n > 0
    ensures |r| == n
  {
    Recentred(FftShift(FftFreq(n, rate)), center as real)
  }

  /** The shifted axis is the progression `center + (i - n//2) * rate / n`: the center
      sits at index n//2. */
  lemma ShiftedAxisClosedForm(n: nat, rate: int, center: int)
    requires n > 0
    ensures forall i :: 0 <= i < n ==>
      ShiftedAxis(n, rate, center)[i] == center as real + ShiftedBin(i, n) as real * (rate as real / n as real)
  {
    forall i | 0 <= i < n
      ensures ShiftedAxis(n, rate, center)[i] == center as real + ShiftedBin(i, n) as real * (rate as real / n as real)
    {
      ShiftedAxisAt(n, rate, center, i);
    }
  }

  /** With a positive rate the shifted axis strictly increases. */
  lemma ShiftedAxisIncreasing(n: nat, rate: int, center: int)
    requires n > 0 && rate > 0
    ensures StrictlyIncreasing(ShiftedAxis(n, rate, center))
  {
    PositiveQuotient(rate, n);
    ShiftedIndicesIncreasing(n);
    ScaledAxisIncreasing(FreqIndices(n), rate as real / n as real, center as real);
  }

  /** The shifted fftfreq order carries strictly increasing bin numbers. */
  lemma ShiftedIndicesIncreasing(n: nat)
    ensures forall i, j :: 0 <= i < j < n ==> FftShift(FreqIndices(n))[i] < FftShift(FreqIndices(n))[j]
  {
    forall i, j | 0 <= i < j < n ensures FftShift(FreqIndices(n))[i] < FftShift(FreqIndices(n))[j] {
      ShiftedIndexAt(n, i);
      ShiftedIndexAt(n, j);
    }
  }

  /** Increasing bin numbers stay increasing once scaled by a positive spacing and recentred. */
  lemma ScaledAxisIncreasing(bins: seq<int>, spacing: real, center: real)
    requires spacing > 0.0
    requires forall i, j :: 0 <= i < j < |bins| ==> FftShift(bins)[i] < FftShift(bins)[j]
    ensures StrictlyIncreasing(Recentred(FftShift(ScaledBins(bins, spacing)), center))
  {
    var a := Recentred(FftShift(ScaledBins(bins, spacing)), center);
    var k := FftShift(bins);
    forall i | 0 <= i < |a| ensures a[i] == center + k[i] as real * spacing {
      ShiftedScaledAt(bins, spacing, center, i, k[i]);
    }
    AffineIncreasing(a, k, spacing, center);
  }

  /** center + k[i] * spacing increases with i when k does and the spacing is positive. */
  lemma AffineIncreasing(a: seq<real>, k: seq<int>, spacing: real, center: real)
    requires |a| == |k| && spacing > 0.0
    requires forall i :: 0 <= i < |a| ==> a[i] == center + k[i] as real * spacing
    requires forall i, j :: 0 <= i < j < |k| ==> k[i] < k[j]
    ensures StrictlyIncreasing(a)
  {
    forall i, j | 0 <= i < j < |a| ensures a[i] < a[j] {
      AffineStrictMono(a[i], a[j], k[i], k[j], spacing, center);
    }
  }

  lemma AffineStrictMono(u: real, v: real, k: int, l: int, spacing: real, center: real)
    requires u == center + k as real * spacing && v == center + l as real * spacing
    requires k < l && spacing > 0.0
    ensures u < v
  {
    MulStrictMono(k as real, l as real, spacing);
  }

  lemma ShiftedAxisAt(n: nat, rate: int, center: int, i: nat)
    requires i < n
    ensures ShiftedAxis(n, rate, center)[i] == center as real + ShiftedBin(i, n) as real * (rate as real / n as real)
  {
    ShiftedIndexAt(n, i);
    ShiftedScaledAt(FreqIndices(n), rate as real / n as real, center as real, i, ShiftedBin(i, n));
  }

  /** Shifted position i of the fftfreq order holds signed bin i - n//2. */
  lemma ShiftedIndexAt(n: nat, i: nat)
    requires i < n
    ensures FftShift(FreqIndices(n))[i] == ShiftedBin(i, n)
  {
    var j := ShiftedSource(n, i);
    assert FftShift(FreqIndices(n))[i] == FreqIndices(n)[j];
  }

  /** Shifting commutes with scaling and recentring: a shifted bin k reads center + k * spacing. */
  lemma ShiftedScaledAt(bins: seq<int>, spacing: real, center: real, i: nat, k: int)
    requires i < |bins| && FftShift(bins)[i] == k
    ensures Recentred(FftShift(ScaledBins(bins, spacing)), center)[i] == center + k as real * spacing
  {
    FftShiftAt(bins);
    FftShiftAt(ScaledBins(bins, spacing));
  }

  /** Position i of the shifted order holds fftfreq position j, whose signed bin is i - n//2. */
  lemma ShiftedSource(n: nat, i: nat) returns (j: nat)
    requires i < n
    ensures j < n && FreqIndex(j, n) == i - n / 2
    ensures i >= n / 2 ==> j == i - n / 2
    ensures i < n / 2 ==> j == i + n - n / 2
  {
    var h := n / 2;
    assert n == 2 * h || n == 2 * h + 1;
    if i >= h {
      j := i - h;
    } else {
      j := i + n - h;
    }
  }

  lemma PositiveQuotient(a: int, b: int)
    requires a > 0 && b > 0
    ensures a as real / b as real > 0.0
  {
  }

  // ---------------------------------------------------------------------------
  // Window search and prominence

  function SeqMax(s: seq<real>): (m: real)
    requires |s| > 0
    ensures forall k :: 0 <= k < |s| ==> s[k] <= m
    ensures exists k :: 0 <= k < |s| && s[k] == m
  {
    if |s| == 1 then s[0]
    else
      var rest := SeqMax(s[1..]);
      assert forall k :: 1 <= k < |s| ==> s[k] == s[1..][k - 1];
      if s[0] >= rest then s[0] else rest
  }

  /** `numpy.mean`: None for an empty band (numpy's nan, which fails every comparison). */
  function Mean(s: seq<real>): Option<real>
  {
    if |s| == 0 then None else Some(Sum(s) / |s| as real)
  }

  /** The two flanking bands `ps[max(0, i-2w) : i-w]` and `ps[i+w : min(n, i+2w)]`. */
  function FlankingBands(ps: seq<real>, i: nat, w: nat): (r: seq<real>)
    requires w <= i && i + w < |ps|
  {
    ps[Max(0, i - 2 * w) .. i - w] + ps[i + w .. Min(|ps|, i + 2 * w)]
  }

  /** For a positive window the right band always holds bin i + w, so the mean is
      defined; with a zero window both bands are empty and the mean never is. */
  lemma FlankMeanDefined(ps: seq<real>, i: nat, w: nat)
    requires w <= i && i + w < |ps|
    ensures w >= 1 ==> ps[i + w] in FlankingBands(ps, i, w)
    ensures Mean(FlankingBands(ps, i, w)).Some? <==> w >= 1
  {
    var r := FlankingBands(ps, i, w);
    var left := ps[Max(0, i - 2 * w) .. i - w];
    if w >= 1 {
      assert r[|left|] == ps[i + w];
    }
  }

  /** The verdict on bin i: below the floor, not the window maximum, not prominent enough
      or outside the band gives None; otherwise the peak (int(freqs[i]), ps[i]). */
  function PeakAt(ps: seq<real>, freqs: seq<real>, i: nat, w: nat, cfg: FftConfig, center: int, bandwidth: int): Option<Peak>
    requires |freqs| == |ps| && w <= i && i + w < |ps|
  {
    var p := ps[i];
    if p < cfg.minPeakHeight then None
    else if p != SeqMax(ps[i - w .. i + w + 1]) then None
    else match Mean(FlankingBands(ps, i, w))
      case None => None
      case Some(avg) =>
        if p - avg < cfg.peakThresholdDb then None
        else
          var f := Trunc(freqs[i]);
          if Abs(f - center) <= bandwidth / 2 then Some(Peak(f, p)) else None
  }

  /** The detector's tests stated directly: a bin is reported exactly when it clears the
      floor, is at least every bin within w of it, beats its flanking mean by the threshold
      and truncates to a frequency within half the bandwidth of the center. */
  lemma PeakAtIff(ps: seq<real>, freqs: seq<real>, i: nat, w: nat, cfg: FftConfig, center: int, bandwidth: int)
    requires |freqs| == |ps| && w <= i && i + w < |ps|
    ensures PeakAt(ps, freqs, i, w, cfg, center, bandwidth).Some? <==>
      && ps[i] >= cfg.minPeakHeight
      && (forall j :: i - w <= j <= i + w ==> ps[j] <= ps[i])
      && Mean(FlankingBands(ps, i, w)).Some?
      && ps[i] - Mean(FlankingBands(ps, i, w)).value >= cfg.peakThresholdDb
      && Abs(Trunc(freqs[i]) - center) <= bandwidth / 2
    ensures PeakAt(ps, freqs, i, w, cfg, center, bandwidth).Some? ==>
      PeakAt(ps, freqs, i, w, cfg, center, bandwidth).value == Peak(Trunc(freqs[i]), ps[i])
  {
    var win := ps[i - w .. i + w + 1];
    var m := SeqMax(win);
    assert win[w] == ps[i];
    if forall j :: i - w <= j <= i + w ==> ps[j] <= ps[i] {
      var k :| 0 <= k < |win| && win[k] == m;
      assert win[k] == ps[i - w + k];
    }
    if ps[i] == m {
      forall j | i - w <= j <= i + w ensures ps[j] <= ps[i] {
        assert ps[j] == win[j - (i - w)];
      }
    }
  }

  /** On a flat top, neighbouring equal bins are each a window maximum: both are reported,
      there is no tie-break. */
  lemma PlateauBinsBothPass()
    ensures PeakAt([0.0, 0.0, 5.0, 5.0, 0.0, 0.0], Zeros(6), 2, 1, FftConfig(6, 1.0, 1.0, 1, 1, 10), 0, 0)
      == Some(Peak(0, 5.0))
    ensures PeakAt([0.0, 0.0, 5.0, 5.0, 0.0, 0.0], Zeros(6), 3, 1, FftConfig(6, 1.0, 1.0, 1, 1, 10), 0, 0)
      == Some(Peak(0, 5.0))
  {
    PlateauBinPasses(2);
    PlateauBinPasses(3);
  }

  /** One bin of the two-bin plateau: it is a window maximum and its flanking mean is at
      least 1 below 5. */
  lemma PlateauBinPasses(i: nat)
    requires i == 2 || i == 3
    ensures PeakAt([0.0, 0.0, 5.0, 5.0, 0.0, 0.0], Zeros(6), i, 1, FftConfig(6, 1.0, 1.0, 1, 1, 10), 0, 0)
      == Some(Peak(0, 5.0))
  {
    var ps := [0.0, 0.0, 5.0, 5.0, 0.0, 0.0];
    PeakAtIff(ps, Zeros(6), i, 1, FftConfig(6, 1.0, 1.0, 1, 1, 10), 0, 0);
    PlateauFlankMean(ps, i);
  }

  /** The flanks of plateau bin i are bins i - 2 and i + 1, which average 2.5 or 0. */
  lemma PlateauFlankMean(ps: seq<real>, i: nat)
    requires ps == [0.0, 0.0, 5.0, 5.0, 0.0, 0.0] && (i == 2 || i == 3)
    ensures Mean(FlankingBands(ps, i, 1)) == Some(if i == 2 then 2.5 else 0.0)
  {
    if i == 2 {
      assert FlankingBands(ps, 2, 1) == [0.0, 5.0] by {
        assert ps[0..1] == [0.0] && ps[3..4] == [5.0];
      }
      assert [0.0, 5.0][1..] == [5.0] && [5.0][1..] == [];
    } else {
      assert FlankingBands(ps, 3, 1) == [0.0, 0.0] by {
        assert ps[1..2] == [0.0] && ps[4..5] == [0.0];
      }
      assert [0.0, 0.0][1..] == [0.0] && [0.0][1..] == [];
    }
  }

  /** The peaks found at bins lo .. hi-1, in ascending bin order (empty when hi <= lo). */
  function Candidates(ps: seq<real>, freqs: seq<real>, w: nat, cfg: FftConfig, center: int, bandwidth: int,
                      lo: nat, hi: int): (r: seq<Peak>)
    requires |freqs| == |ps| && w <= lo && (hi > lo ==> hi + w <= |ps|)
    ensures |r| <= Max(hi - lo, 0)
    decreases hi - lo
  {
    if hi <= lo then []
    else
      var v := PeakAt(ps, freqs, hi - 1, w, cfg, center, bandwidth);
      Candidates(ps, freqs, w, cfg, center, bandwidth, lo, hi - 1) + (if v.Some? then [v.value] else [])
  }

  /** Every candidate is the verdict of some bin in range. */
  lemma {:induction false} CandidatesSound(ps: seq<real>, freqs: seq<real>, w: nat, cfg: FftConfig,
                                           center: int, bandwidth: int, lo: nat, hi: int, p: Peak)
    requires |freqs| == |ps| && w <= lo && (hi > lo ==> hi + w <= |ps|)
    requires p in Candidates(ps, freqs, w, cfg, center, bandwidth, lo, hi)
    ensures exists i :: lo <= i < hi && PeakAt(ps, freqs, i, w, cfg, center, bandwidth) == Some(p)
    decreases hi - lo
  {
    var rest := Candidates(ps, freqs, w, cfg, center, bandwidth, lo, hi - 1);
    if p in rest {
      CandidatesSound(ps, freqs, w, cfg, center, bandwidth, lo, hi - 1, p);
    } else {
      assert PeakAt(ps, freqs, hi - 1, w, cfg, center, bandwidth) == Some(p);
    }
  }

  /** Every bin in range that passes contributes its peak. */
  lemma {:induction false} CandidatesComplete(ps: seq<real>, freqs: seq<real>, w: nat, cfg: FftConfig,
                                              center: int, bandwidth: int, lo: nat, hi: int, i: nat)
    requires |freqs| == |ps| && w <= lo && (hi > lo ==> hi + w <= |ps|)
    requires lo <= i < hi && PeakAt(ps, freqs, i, w, cfg, center, bandwidth).Some?
    ensures PeakAt(ps, freqs, i, w, cfg, center, bandwidth).value in Candidates(ps, freqs, w, cfg, center, bandwidth, lo, hi)
    decreases hi - lo
  {
    if i < hi - 1 {
      CandidatesComplete(ps, freqs, w, cfg, center, bandwidth, lo, hi - 1, i);
    }
  }

  // ---------------------------------------------------------------------------
  // Stable sort by power, strongest first

  /** Insert x after every peak at least as strong: the place Python's stable
      `sort(key=power, reverse=True)` gives the later of equal-power peaks. */
  function InsertByPower(x: Peak, s: seq<Peak>): (r: seq<Peak>)
    ensures |r| == |s| + 1
  {
    if s == [] || s[0].power < x.power then [x] + s
    else [s[0]] + InsertByPower(x, s[1..])
  }

  function SortByPower(s: seq<Peak>): (r: seq<Peak>)
    ensures |r| == |s|
  {
    if s == [] then [] else InsertByPower(Last(s), SortByPower(s[..|s| - 1]))
  }

  ghost predicate PowerDescending(s: seq<Peak>)
  {
    forall i, j :: 0 <= i < j < |s| ==> s[i].power >= s[j].power
  }

  lemma DescendingTail(s: seq<Peak>)
    requires PowerDescending(s) && s != []
    ensures PowerDescending(s[1..])
    ensures forall k :: 0 <= k < |s[1..]| ==> s[0].power >= s[1..][k].power
  {
    forall i, j | 0 <= i < j < |s[1..]| ensures s[1..][i].power >= s[1..][j].power {
      assert s[1..][i] == s[i + 1] && s[1..][j] == s[j + 1];
    }
    forall k | 0 <= k < |s[1..]| ensures s[0].power >= s[1..][k].power {
      assert s[1..][k] == s[k + 1];
    }
  }

  /** The peaks of power v, in order. */
  function WithPower(s: seq<Peak>, v: real): (r: seq<Peak>)
    ensures |r| <= |s|
  {
    if s == [] then []
    else (if s[0].power == v then [s[0]] else []) + WithPower(s[1..], v)
  }

  lemma {:induction false} WithPowerAppend(s: seq<Peak>, t: seq<Peak>, v: real)
    ensures WithPower(s + t, v) == WithPower(s, v) + WithPower(t, v)
  {
    if s == [] {
      assert s + t == t;
    } else {
      assert (s + t)[0] == s[0];
      assert (s + t)[1..] == s[1..] + t;
      WithPowerAppend(s[1..], t, v);
      assert WithPower(s + t, v) == (if s[0].power == v then [s[0]] else []) + WithPower(s[1..] + t, v);
    }
  }

  lemma {:induction false} WithPowerNone(s: seq<Peak>, v: real)
    requires forall k :: 0 <= k < |s| ==> s[k].power != v
    ensures WithPower(s, v) == []
  {
    if s != [] {
      WithPowerNone(s[1..], v);
    }
  }

  lemma {:induction false} InsertByPowerPermutes(x: Peak, s: seq<Peak>)
    ensures multiset(InsertByPower(x, s)) == multiset(s) + multiset{x}
  {
    if s != [] && s[0].power >= x.power {
      InsertByPowerPermutes(x, s[1..]);
      assert s == [s[0]] + s[1..];
    }
  }

  lemma {:induction false} InsertByPowerSorted(x: Peak, s: seq<Peak>)
    requires PowerDescending(s)
    ensures PowerDescending(InsertByPower(x, s))
  {
    if s == [] || s[0].power < x.power {
      forall j | 0 <= j < |s| ensures x.power >= s[j].power {
        assert s[0].power >= s[j].power;
      }
      PrependDescending(x, s);
    } else {
      var rest := InsertByPower(x, s[1..]);
      DescendingTail(s);
      InsertByPowerSorted(x, s[1..]);
      InsertedBelowHead(x, s);
      PrependDescending(s[0], rest);
    }
  }

  /** A head at least as strong as every peak of a descending tail keeps it descending. */
  lemma PrependDescending(h: Peak, t: seq<Peak>)
    requires PowerDescending(t) && forall j :: 0 <= j < |t| ==> h.power >= t[j].power
    ensures PowerDescending([h] + t)
  {
    var r := [h] + t;
    forall i, j | 0 <= i < j < |r| ensures r[i].power >= r[j].power {
      assert r[j] == t[j - 1];
      if i > 0 {
        assert r[i] == t[i - 1];
      }
    }
  }

  /** When x is not stronger than the head, everything it is inserted among stays at or
      below the head's power. */
  lemma InsertedBelowHead(x: Peak, s: seq<Peak>)
    requires PowerDescending(s) && s != [] && s[0].power >= x.power
    ensures forall j :: 0 <= j < |InsertByPower(x, s[1..])| ==> s[0].power >= InsertByPower(x, s[1..])[j].power
  {
    var rest := InsertByPower(x, s[1..]);
    InsertByPowerPermutes(x, s[1..]);
    forall j | 0 <= j < |rest| ensures s[0].power >= rest[j].power {
      assert rest[j] in multiset(rest);
      if rest[j] != x {
        assert rest[j] in multiset(s[1..]);
        var u :| 0 <= u < |s[1..]| && s[1..][u] == rest[j];
        assert s[0].power >= s[u + 1].power;
      }
    }
  }

  /** Inserting x keeps the order among the peaks of each power: x goes after the peaks
      of its own power. */
  lemma {:induction false} InsertByPowerStable(x: Peak, s: seq<Peak>, v: real)
    requires PowerDescending(s)
    ensures WithPower(InsertByPower(x, s), v) == WithPower(s, v) + WithPower([x], v)
  {
    if s == [] || s[0].power < x.power {
      InsertAtFrontStable(x, s, v);
    } else {
      DescendingTail(s);
      InsertByPowerStable(x, s[1..], v);
      WithPowerAppend([s[0]], InsertByPower(x, s[1..]), v);
      WithPowerAppend([s[0]], s[1..], v);
      assert s == [s[0]] + s[1..];
    }
  }

  /** A peak stronger than every other goes in front, which changes no power's order. */
  lemma InsertAtFrontStable(x: Peak, s: seq<Peak>, v: real)
    requires PowerDescending(s) && (s == [] || s[0].power < x.power)
    ensures WithPower([x] + s, v) == WithPower(s, v) + WithPower([x], v)
  {
    WithPowerAppend([x], s, v);
    if s != [] && x.power == v {
      forall k | 0 <= k < |s| ensures s[k].power != v {
        assert s[0].power >= s[k].power;
      }
      WithPowerNone(s, v);
    }
    if x.power != v {
      assert WithPower([x], v) == WithPower([], v) == [] by {
        assert [x][1..] == [];
      }
    }
  }

  lemma {:induction false} SortByPowerPermutes(s: seq<Peak>)
    ensures multiset(SortByPower(s)) == multiset(s)
  {
    if s != [] {
      SortByPowerPermutes(s[..|s| - 1]);
      InsertByPowerPermutes(Last(s), SortByPower(s[..|s| - 1]));
      assert s == s[..|s| - 1] + [Last(s)];
    }
  }

  lemma {:induction false} SortByPowerSorted(s: seq<Peak>)
    ensures PowerDescending(SortByPower(s))
  {
    if s != [] {
      SortByPowerSorted(s[..|s| - 1]);
      InsertByPowerSorted(Last(s), SortByPower(s[..|s| - 1]));
    }
  }

  /** The sort is stable: the peaks of any one power keep their input order. */
  lemma {:induction false} SortByPowerStable(s: seq<Peak>, v: real)
    ensures WithPower(SortByPower(s), v) == WithPower(s, v)
  {
    if s != [] {
      var init := s[..|s| - 1];
      SortByPowerStable(init, v);
      SortByPowerSorted(init);
      InsertByPowerStable(Last(s), SortByPower(init), v);
      assert s == init + [Last(s)];
      WithPowerAppend(init, [Last(s)], v);
    }
  }

  /** `peaks[:count]` for a count that is not negative. */
  function Take(s: seq<Peak>, count: nat): (r: seq<Peak>)
    ensures |r| == Min(count, |s|) && r <= s
  {
    s[..Min(count, |s|)]
  }

  // ---------------------------------------------------------------------------
  // detect_peaks_in_spectrum

  /** The window half-width `max(min_window_size, n // window_size_divisor)`. */
  function WindowSize(n: nat, cfg: FftConfig): nat
    requires ValidFftConfig(cfg)
  {
    Max(cfg.minWindowSize, n / cfg.windowSizeDivisor)
  }

  /** A full capture of rx_buffer_size samples under the configured constants is cut to
      fft_size = 2048 samples, and the detection window is then 2048 // 100 = 20 bins. */
  lemma DefaultCaptureFillsFft(samples: seq<Complex>)
    requires |samples| == RxBufferSize
    ensures ValidFftConfig(DefaultFftConfig)
    ensures |Conditioned(samples, DefaultFftConfig)| == DefaultFftConfig.fftSize
    ensures WindowSize(DefaultFftConfig.fftSize, DefaultFftConfig) == 20
  {
  }

  /** The peaks of the examined bins `range(w, n - w)`, in bin order. */
  function BinCandidates(ps: seq<real>, freqs: seq<real>, cfg: FftConfig, center: int, bandwidth: int): seq<Peak>
    requires ValidFftConfig(cfg) && |freqs| == |ps|
  {
    var w := WindowSize(|ps|, cfg);
    Candidates(ps, freqs, w, cfg, center, bandwidth, w, |ps| - w)
  }

  /** Detection on a power spectrum and its axis: the stably strongest-first candidates,
      cut to the cap. */
  function DetectOn(ps: seq<real>, freqs: seq<real>, cfg: FftConfig, center: int, bandwidth: int): (r: seq<Peak>)
    requires ValidFftConfig(cfg) && |freqs| == |ps|
    ensures |r| <= cfg.maxPeaksPerBand
    ensures PowerDescending(r)
  {
    var sorted := SortByPower(BinCandidates(ps, freqs, cfg, center, bandwidth));
    SortByPowerSorted(BinCandidates(ps, freqs, cfg, center, bandwidth));
    var r := Take(sorted, cfg.maxPeaksPerBand);
    assert forall i :: 0 <= i < |r| ==> r[i] == sorted[i];
    r
  }

  /** A peak kept from the sorted list was a candidate. */
  lemma KeptWasCandidate(cands: seq<Peak>, cap: nat, p: Peak)
    requires p in Take(SortByPower(cands), cap)
    ensures p in cands
  {
    var sorted := SortByPower(cands);
    SortByPowerPermutes(cands);
    assert p in sorted;
    assert p in multiset(sorted);
  }

  /** A candidate is dropped only when the cap is full of peaks at least as strong. */
  lemma DroppedOnlyByStronger(cands: seq<Peak>, cap: nat, p: Peak)
    requires p in cands
    ensures var r := Take(SortByPower(cands), cap);
      p in r || (|r| == cap && forall q :: q in r ==> q.power >= p.power)
  {
    var sorted := SortByPower(cands);
    var r := Take(sorted, cap);
    SortByPowerPermutes(cands);
    SortByPowerSorted(cands);
    assert p in multiset(sorted);
    var k :| 0 <= k < |sorted| && sorted[k] == p;
    if k < |r| {
      assert r[k] == p;
    } else {
      forall q | q in r ensures q.power >= p.power {
        var j :| 0 <= j < |r| && r[j] == q;
        assert sorted[j] == q;
      }
    }
  }

  /** Every reported peak is the verdict of a bin of `range(w, n - w)` that passes every test. */
  lemma DetectOnSound(ps: seq<real>, freqs: seq<real>, cfg: FftConfig, center: int, bandwidth: int)
    requires ValidFftConfig(cfg) && |freqs| == |ps|
    ensures var w := WindowSize(|ps|, cfg);
      forall p :: p in DetectOn(ps, freqs, cfg, center, bandwidth) ==>
        exists i :: w <= i < |ps| - w && PeakAt(ps, freqs, i, w, cfg, center, bandwidth) == Some(p)
  {
    var w := WindowSize(|ps|, cfg);
    var cands := BinCandidates(ps, freqs, cfg, center, bandwidth);
    var r := DetectOn(ps, freqs, cfg, center, bandwidth);
    assert r == Take(SortByPower(cands), cfg.maxPeaksPerBand);
    forall p | p in r
      ensures exists i :: w <= i < |ps| - w && PeakAt(ps, freqs, i, w, cfg, center, bandwidth) == Some(p)
    {
      KeptWasCandidate(cands, cfg.maxPeaksPerBand, p);
      CandidatesSound(ps, freqs, w, cfg, center, bandwidth, w, |ps| - w, p);
    }
  }

  /** A passing bin of `range(w, n - w)` is left out only when the cap is reached, and
      then by peaks at least as strong. */
  lemma DetectOnComplete(ps: seq<real>, freqs: seq<real>, cfg: FftConfig, center: int, bandwidth: int)
    requires ValidFftConfig(cfg) && |freqs| == |ps|
    ensures var w := WindowSize(|ps|, cfg);
      var r := DetectOn(ps, freqs, cfg, center, bandwidth);
      forall i :: w <= i < |ps| - w && PeakAt(ps, freqs, i, w, cfg, center, bandwidth).Some? ==>
        PeakAt(ps, freqs, i, w, cfg, center, bandwidth).value in r ||
        (|r| == cfg.maxPeaksPerBand &&
         forall q :: q in r ==> q.power >= PeakAt(ps, freqs, i, w, cfg, center, bandwidth).value.power)
  {
    var w := WindowSize(|ps|, cfg);
    var cands := BinCandidates(ps, freqs, cfg, center, bandwidth);
    var r := DetectOn(ps, freqs, cfg, center, bandwidth);
    assert r == Take(SortByPower(cands), cfg.maxPeaksPerBand);
    forall i | w <= i < |ps| - w && PeakAt(ps, freqs, i, w, cfg, center, bandwidth).Some?
      ensures PeakAt(ps, freqs, i, w, cfg, center, bandwidth).value in r ||
        (|r| == cfg.maxPeaksPerBand &&
         forall q :: q in r ==> q.power >= PeakAt(ps, freqs, i, w, cfg, center, bandwidth).value.power)
    {
      CandidatesComplete(ps, freqs, w, cfg, center, bandwidth, w, |ps| - w, i);
      DroppedOnlyByStronger(cands, cfg.maxPeaksPerBand, PeakAt(ps, freqs, i, w, cfg, center, bandwidth).value);
    }
  }

  /** Among the peaks of any one power, the report is a prefix of the candidates in bin
      order: equal-power peaks keep ascending-bin order. */
  lemma DetectOnStable(ps: seq<real>, freqs: seq<real>, cfg: FftConfig, center: int, bandwidth: int, v: real)
    requires ValidFftConfig(cfg) && |freqs| == |ps|
    ensures WithPower(DetectOn(ps, freqs, cfg, center, bandwidth), v) <= WithPower(BinCandidates(ps, freqs, cfg, center, bandwidth), v)
  {
    var cands := BinCandidates(ps, freqs, cfg, center, bandwidth);
    var sorted := SortByPower(cands);
    var r := DetectOn(ps, freqs, cfg, center, bandwidth);
    SortByPowerStable(cands, v);
    assert sorted == r + sorted[|r|..];
    WithPowerAppend(r, sorted[|r|..], v);
  }

  /** The detector as a value: [] for no samples, ZeroDivisionError (from `1 / sample_rate`)
      for a zero rate, else detection on the shifted power spectrum of the conditioned
      samples. */
  function DetectPeaks(num: Numerics, cfg: FftConfig, samples: seq<Complex>, center: int, rate: int, bandwidth: int)
    : (r: Result<seq<Peak>>)
    requires ValidFftConfig(cfg)
    ensures |samples| == 0 ==> r == Ok([])
    ensures r.Err? <==> |samples| > 0 && rate == 0
    ensures r.Err? ==> r.error == ZeroDivisionError
    ensures r.Ok? ==> |r.value| <= cfg.maxPeaksPerBand && PowerDescending(r.value)
  {
    if |samples| == 0 then Ok([])
    else if rate == 0 then Err(ZeroDivisionError)
    else
      var x := Conditioned(samples, cfg);
      Ok(DetectOn(PowerSpectrum(num, x), ShiftedAxis(|x|, rate, center), cfg, center, bandwidth))
  }

  method DetectPeaksInSpectrum(num: Numerics, cfg: FftConfig, samples: seq<Complex>, center: int, rate: int, bandwidth: int)
    returns (r: Result<seq<Peak>>)
    requires ValidFftConfig(cfg)
    ensures r == DetectPeaks(num, cfg, samples, center, rate, bandwidth)
  {
    if |samples| == 0 {
      return Ok([]);
    }
    var n: nat := Min(cfg.fftSize, |samples|);
    var x := samples;
    if |x| < n {
      // the zero-pad branch: n never exceeds the sample count
      assert false;
    } else if |x| > n {
      x := x[..n];
    }
    assert x == Conditioned(samples, cfg);
    var ps := PowerSpectrum(num, x);
    if rate == 0 {
      return Err(ZeroDivisionError);
    }
    var freqs := ShiftedAxis(n, rate, center);
    var peaks := ScanBins(ps, freqs, cfg, center, bandwidth);
    peaks := SortByPower(peaks);
    r := Ok(Take(peaks, cfg.maxPeaksPerBand));
  }

  /** The `for i in range(w, n - w)` loop of the detector: each bin's tests in the
      source's order, appending the bins that pass. */
  method ScanBins(ps: seq<real>, freqs: seq<real>, cfg: FftConfig, center: int, bandwidth: int)
    returns (peaks: seq<Peak>)
    requires ValidFftConfig(cfg) && |freqs| == |ps|
    ensures peaks == BinCandidates(ps, freqs, cfg, center, bandwidth)
  {
    var n := |ps|;
    var w := WindowSize(n, cfg);
    peaks := [];
    var i := w;
    while i < n - w
      invariant w <= i && (i > w ==> i <= n - w)
      invariant peaks == Candidates(ps, freqs, w, cfg, center, bandwidth, w, i)
    {
      peaks := ExamineBin(ps, freqs, w, cfg, center, bandwidth, i, peaks);
      i := i + 1;
    }
  }

  /** The loop body of the scan: test bin i and append its verdict, if any. */
  method ExamineBin(ps: seq<real>, freqs: seq<real>, w: nat, cfg: FftConfig, center: int, bandwidth: int,
                    i: nat, peaks: seq<Peak>)
    returns (next: seq<Peak>)
    requires |freqs| == |ps| && w <= i && i + w < |ps|
    requires peaks == Candidates(ps, freqs, w, cfg, center, bandwidth, w, i)
    ensures next == Candidates(ps, freqs, w, cfg, center, bandwidth, w, i + 1)
  {
    var verdict := TestBin(ps, freqs, i, w, cfg, center, bandwidth);
    next := if verdict.Some? then peaks + [verdict.value] else peaks;
    CandidatesExtend(ps, freqs, w, cfg, center, bandwidth, w, i, verdict, peaks, next);
  }

  /** One more examined bin appends its verdict, if any, to the candidates. */
  lemma CandidatesExtend(ps: seq<real>, freqs: seq<real>, w: nat, cfg: FftConfig, center: int, bandwidth: int,
                         lo: nat, i: nat, verdict: Option<Peak>, before: seq<Peak>, after: seq<Peak>)
    requires |freqs| == |ps| && w <= lo <= i && i + w < |ps|
    requires verdict == PeakAt(ps, freqs, i, w, cfg, center, bandwidth)
    requires before == Candidates(ps, freqs, w, cfg, center, bandwidth, lo, i)
    requires after == if verdict.Some? then before + [verdict.value] else before
    ensures after == Candidates(ps, freqs, w, cfg, center, bandwidth, lo, i + 1)
  {
  }

  /** One pass of the loop body: the floor, the local maximum, the prominence and the
      band tests on bin i, in the source's order. */
  method TestBin(ps: seq<real>, freqs: seq<real>, i: nat, w: nat, cfg: FftConfig, center: int, bandwidth: int)
    returns (verdict: Option<Peak>)
    requires |freqs| == |ps| && w <= i && i + w < |ps|
    ensures verdict == PeakAt(ps, freqs, i, w, cfg, center, bandwidth)
  {
    verdict := None;
    var current := ps[i];
    if current < cfg.minPeakHeight {
      return;
    }
    var localWindow := ps[i - w .. i + w + 1];
    if current == SeqMax(localWindow) {
      var surroundingAvg := Mean(FlankingBands(ps, i, w));
      if surroundingAvg.Some? && current - surroundingAvg.value >= cfg.peakThresholdDb {
        var freqHz := Trunc(freqs[i]);
        if Abs(freqHz - center) <= bandwidth / 2 {
          verdict := Some(Peak(freqHz, current));
        }
      }
    }
  }

  // ---------------------------------------------------------------------------
  // enhanced_frequency_scan

  /** What one capture attempt yields: samples, None (a failed capture), or an exception
      (a keyboard interrupt or a hardware error) that ends the scan. */
  datatype CaptureOutcome = Captured(samples: seq<Complex>) | NoSamples | Raised

  /** The scan's dict: the centers recorded, in insertion order, and their peak lists. */
  datatype ScanResults = ScanResults(centers: seq<int>, peaks: map<int, seq<Peak>>)

  const EmptyResults: ScanResults := ScanResults([], map[])

  /** A Python dict as a value: distinct keys in insertion order, and exactly those keys mapped. */
  ghost predicate IsDict(r: ScanResults)
  {
    && (forall i, j :: 0 <= i < j < |r.centers| ==> r.centers[i] != r.centers[j])
    && (forall i :: 0 <= i < |r.centers| ==> r.centers[i] in r.peaks)
    && (forall c :: c in r.peaks ==> c in r.centers)
  }

  /** `scan_results[c] = peaks`: a new key goes to the end of the insertion order, an
      existing one keeps its place and takes the new list. */
  function Record(r: ScanResults, c: int, peaks: seq<Peak>): (out: ScanResults)
    ensures out.peaks == r.peaks[c := peaks]
    ensures c in r.peaks ==> out.centers == r.centers
    ensures c !in r.peaks ==> out.centers == r.centers + [c]
  {
    if c in r.peaks then ScanResults(r.centers, r.peaks[c := peaks])
    else ScanResults(r.centers + [c], r.peaks[c := peaks])
  }

  /** Recording keeps the keys distinct and exactly the mapped ones. */
  lemma RecordKeepsDict(r: ScanResults, c: int, peaks: seq<Peak>)
    requires IsDict(r)
    ensures IsDict(Record(r, c, peaks))
  {
  }

  /** The detector the scan calls on each capture: samples and a center frequency to a
      peak list, or the exception it raises. */
  type Detector = (seq<Complex>, int) -> Result<seq<Peak>>

  /** `detect_peaks_in_spectrum` with the scan's rate, bandwidth and configuration fixed:
      it never returns more than the cap, and it raises exactly when there are samples and
      the rate is zero. */
  function PeakDetector(num: Numerics, cfg: FftConfig, rate: int, bandwidth: int): (d: Detector)
    requires ValidFftConfig(cfg)
    ensures Capped(d, cfg.maxPeaksPerBand)
    ensures forall s, c :: d(s, c).Err? <==> |s| > 0 && rate == 0
  {
    (s: seq<Complex>, c: int) => DetectPeaks(num, cfg, s, c, rate, bandwidth)
  }

  /** No list the detector returns is longer than cap. */
  ghost predicate Capped(detect: Detector, cap: int)
  {
    forall s, c :: detect(s, c).Ok? ==> |detect(s, c).value| <= cap
  }

  lemma CappedAt(detect: Detector, cap: int, s: seq<Complex>, c: int)
    requires Capped(detect, cap)
    ensures detect(s, c).Ok? ==> |detect(s, c).value| <= cap
  {
  }

  /** The detector never raises. */
  ghost predicate NeverRaises(detect: Detector)
  {
    forall s, c :: detect(s, c).Ok?
  }

  /** One pass of the scan loop on the results so far: record the detector's peaks, or []
      for a failed capture, and go on; or stop on an exception (from the capture or from
      the detector). The flag says whether the scan stopped. */
  function ScanStep(detect: Detector, outcome: CaptureOutcome, c: int, prev: ScanResults): (ScanResults, bool)
  {
    match outcome
    case Raised => (prev, true)
    case NoSamples => (Record(prev, c, []), false)
    case Captured(s) =>
      match detect(s, c)
      case Err(_) => (prev, true)
      case Ok(peaks) => (Record(prev, c, peaks), false)
  }

  /** The scan after the first k centers: its results and whether it has stopped. */
  function ScanPrefix(detect: Detector, capture: (nat, int) -> CaptureOutcome, centers: seq<int>, k: nat)
    : (r: (ScanResults, bool))
    requires k <= |centers|
  {
    if k == 0 then (EmptyResults, false)
    else
      var prev := ScanPrefix(detect, capture, centers, k - 1);
      if prev.1 then prev
      else ScanStep(detect, capture(k - 1, centers[k - 1]), centers[k - 1], prev.0)
  }

  /** The scan's results are always a well-formed dict. */
  lemma {:induction false} ScanPrefixIsDict(detect: Detector, capture: (nat, int) -> CaptureOutcome,
                                            centers: seq<int>, k: nat)
    requires k <= |centers|
    ensures IsDict(ScanPrefix(detect, capture, centers, k).0)
  {
    if k > 0 {
      ScanPrefixIsDict(detect, capture, centers, k - 1);
      var prev := ScanPrefix(detect, capture, centers, k - 1);
      if !prev.1 {
        RecordKeepsDict(prev.0, centers[k - 1], []);
        match capture(k - 1, centers[k - 1])
        case Captured(samples) =>
          if detect(samples, centers[k - 1]).Ok? {
            RecordKeepsDict(prev.0, centers[k - 1], detect(samples, centers[k - 1]).value);
          }
        case _ =>
      }
    }
  }

  /** Over distinct centers, the recorded centers are a prefix of the centers to visit, and
      a scan that has not stopped has recorded all of the first k, in order. */
  lemma {:induction false} ScanPrefixCenters(detect: Detector, capture: (nat, int) -> CaptureOutcome,
                                             centers: seq<int>, k: nat)
    requires k <= |centers|
    requires forall i, j :: 0 <= i < j < |centers| ==> centers[i] != centers[j]
    ensures ScanPrefix(detect, capture, centers, k).0.centers <= centers[..k]
    ensures !ScanPrefix(detect, capture, centers, k).1 ==> ScanPrefix(detect, capture, centers, k).0.centers == centers[..k]
  {
    if k > 0 {
      ScanPrefixCenters(detect, capture, centers, k - 1);
      ScanPrefixIsDict(detect, capture, centers, k - 1);
      var prev := ScanPrefix(detect, capture, centers, k - 1).0;
      assert centers[..k] == centers[..k - 1] + [centers[k - 1]];
      assert prev.centers <= centers[..k];
    }
  }

  /** Whatever happens, the recorded centers are a prefix of the centers to visit, each
      has a list and nothing else does, and no list is longer than the detector's cap. */
  lemma {:induction false} ScanPrefixShape(detect: Detector, cap: nat, capture: (nat, int) -> CaptureOutcome,
                                           centers: seq<int>, k: nat)
    requires Capped(detect, cap) && k <= |centers|
    requires forall i, j :: 0 <= i < j < |centers| ==> centers[i] != centers[j]
    ensures var r := ScanPrefix(detect, capture, centers, k).0;
      && r.centers <= centers[..k]
      && IsDict(r)
      && (forall c :: c in r.peaks ==> |r.peaks[c]| <= cap)
  {
    ScanPrefixCenters(detect, capture, centers, k);
    ScanPrefixIsDict(detect, capture, centers, k);
    ScanPrefixCapped(detect, cap, capture, centers, k);
  }

  /** No recorded list is longer than cap. */
  ghost predicate ListsCapped(r: ScanResults, cap: int)
  {
    forall c :: c in r.peaks ==> |r.peaks[c]| <= cap
  }

  /** No recorded list is longer than the detector's cap. */
  lemma {:induction false} ScanPrefixCapped(detect: Detector, cap: nat, capture: (nat, int) -> CaptureOutcome,
                                            centers: seq<int>, k: nat)
    requires Capped(detect, cap) && k <= |centers|
    ensures ListsCapped(ScanPrefix(detect, capture, centers, k).0, cap)
  {
    if k > 0 {
      ScanPrefixCapped(detect, cap, capture, centers, k - 1);
      var prev := ScanPrefix(detect, capture, centers, k - 1);
      var center := centers[k - 1];
      if !prev.1 {
        match capture(k - 1, center)
        case Captured(samples) =>
          CappedAt(detect, cap, samples, center);
        case _ =>
      }
    }
  }

  /** The centers the scan steps through: start, start + step, ... while at most end. */
  function ScanCenters(scan: ScanConfig): (r: seq<int>)
    requires scan.step > 0
    ensures forall i :: 0 <= i < |r| ==> r[i] == scan.start + i * scan.step <= scan.end
  {
    RangeUpToEnd(scan.start, scan.end, scan.step);
    PyRange(scan.start, scan.end + 1, scan.step)
  }

  /** Every element of range(start, end + 1, step) is start + i * step and at most end. */
  lemma RangeUpToEnd(start: int, end: int, step: int)
    requires step > 0
    ensures forall i :: 0 <= i < |PyRange(start, end + 1, step)| ==>
      PyRange(start, end + 1, step)[i] == start + i * step <= end
  {
    var r := PyRange(start, end + 1, step);
    forall i | 0 <= i < |r| ensures r[i] == start + i * step <= end {
      RangeIndex(start, end + 1, step, i);
    }
  }

  /** The centers strictly increase. */
  lemma ScanCentersIncreasing(scan: ScanConfig)
    requires scan.step > 0
    ensures forall i, j :: 0 <= i < j < |ScanCenters(scan)| ==> ScanCenters(scan)[i] < ScanCenters(scan)[j]
  {
    var centers := ScanCenters(scan);
    forall i, j | 0 <= i < j < |centers| ensures centers[i] < centers[j] {
      MulMono(i + 1, j, scan.step);
      assert (i + 1) * scan.step == i * scan.step + scan.step;
    }
  }

  /** Consecutive centers are one step apart, and one step past the last is past the end. */
  lemma ScanCentersNext(scan: ScanConfig, i: nat)
    requires scan.step > 0 && i < |ScanCenters(scan)|
    ensures ScanCenters(scan)[i] <= scan.end
    ensures i + 1 < |ScanCenters(scan)| ==> ScanCenters(scan)[i + 1] == ScanCenters(scan)[i] + scan.step
    ensures i + 1 == |ScanCenters(scan)| ==> ScanCenters(scan)[i] + scan.step > scan.end
  {
    RangeIndex(scan.start, scan.end + 1, scan.step, i + 1);
    assert (i + 1) * scan.step == i * scan.step + scan.step;
  }

  /** With end >= start there are (end - start) // step + 1 centers. */
  lemma ScanCentersCount(scan: ScanConfig)
    requires scan.step > 0 && scan.end >= scan.start
    ensures |ScanCenters(scan)| == (scan.end - scan.start) / scan.step + 1
  {
    RangeCount(scan.start, scan.end, scan.step);
  }

  /** The configured scan visits 26 centers, 1.4 GHz to 1.9 GHz inclusive. */
  lemma DefaultScanHas26Centers()
    ensures |ScanCenters(DefaultScanConfig)| == 26
    ensures ScanCenters(DefaultScanConfig)[25] == DefaultScanConfig.end
  {
    CenterCountFor(DefaultScanConfig, 25);
  }

  /** A span of exactly q steps gives q + 1 centers, the last one at end. */
  lemma CenterCountFor(scan: ScanConfig, q: nat)
    requires scan.step > 0 && scan.end - scan.start == q * scan.step
    ensures |ScanCenters(scan)| == q + 1
    ensures ScanCenters(scan)[q] == scan.end
  {
    ScanCentersCount(scan);
    ExactQuotient(q, scan.step);
  }

  /** The whole scan: {} when not connected, else the results at the point it stopped. */
  function EnhancedScan(connected: bool, num: Numerics, cfg: FftConfig, scan: ScanConfig,
                        capture: (nat, int) -> CaptureOutcome, rate: int, bandwidth: int): (r: ScanResults)
    requires ValidFftConfig(cfg) && scan.step > 0
    ensures !connected ==> r == EmptyResults
  {
    if !connected then EmptyResults
    else ScanPrefix(PeakDetector(num, cfg, rate, bandwidth), capture, ScanCenters(scan), |ScanCenters(scan)|).0
  }

  /** The scan's dict in every case: its keys are visited centers in ascending order, each
      key has a list, and every list respects the cap. */
  lemma EnhancedScanShape(connected: bool, num: Numerics, cfg: FftConfig, scan: ScanConfig,
                          capture: (nat, int) -> CaptureOutcome, rate: int, bandwidth: int)
    requires ValidFftConfig(cfg) && scan.step > 0
    ensures var r := EnhancedScan(connected, num, cfg, scan, capture, rate, bandwidth);
      && r.centers <= ScanCenters(scan)
      && (forall i, j :: 0 <= i < j < |r.centers| ==> r.centers[i] < r.centers[j])
      && IsDict(r)
      && (forall c :: c in r.peaks ==> |r.peaks[c]| <= cfg.maxPeaksPerBand)
  {
    var centers := ScanCenters(scan);
    ScanCentersIncreasing(scan);
    assert forall i, j :: 0 <= i < j < |centers| ==> centers[i] != centers[j];
    ScanPrefixShape(PeakDetector(num, cfg, rate, bandwidth), cfg.maxPeaksPerBand, capture, centers, |centers|);
    assert centers[..|centers|] == centers;
    var r := EnhancedScan(connected, num, cfg, scan, capture, rate, bandwidth);
    forall i, j | 0 <= i < j < |r.centers| ensures r.centers[i] < r.centers[j] {
      assert r.centers[i] == centers[i] && r.centers[j] == centers[j];
    }
  }

  method EnhancedFrequencyScan(connected: bool, num: Numerics, cfg: FftConfig, scan: ScanConfig,
                               capture: (nat, int) -> CaptureOutcome, rate: int, bandwidth: int)
    returns (results: ScanResults)
    requires ValidFftConfig(cfg) && scan.step > 0
    ensures results == EnhancedScan(connected, num, cfg, scan, capture, rate, bandwidth)
  {
    if !connected {
      return EmptyResults;
    }
    ghost var centers := ScanCenters(scan);
    ghost var detect := PeakDetector(num, cfg, rate, bandwidth);
    results := EmptyResults;
    var currentFreq := scan.start;
    var i: nat := 0;
    if |centers| == 0 {
      RangeIndex(scan.start, scan.end + 1, scan.step, 0);
    }
    while currentFreq <= scan.end
      invariant i <= |centers| && (i < |centers| ==> currentFreq == centers[i])
      invariant i == |centers| ==> currentFreq > scan.end
      invariant (results, false) == ScanPrefix(detect, capture, centers, i)
      decreases |centers| - i
    {
      ScanPrefixStep(detect, capture, centers, i);
      var outcome := capture(i, currentFreq);
      var stopped;
      results, stopped := ScanOnce(num, cfg, outcome, currentFreq, rate, bandwidth, results);
      if stopped {
        StoppedScanStaysStopped(detect, capture, centers, i + 1, |centers|);
        return;
      }
      ScanCentersNext(scan, i);
      currentFreq := currentFreq + scan.step;
      i := i + 1;
    }
    if i < |centers| {
      ScanCentersNext(scan, i);
    }
  }

  /** The body of the scan loop for one center: an exception stops the scan with the
      results so far, a failed capture records [], a capture records the detector's peaks. */
  method ScanOnce(num: Numerics, cfg: FftConfig, outcome: CaptureOutcome, currentFreq: int, rate: int, bandwidth: int,
                  results: ScanResults) returns (next: ScanResults, stopped: bool)
    requires ValidFftConfig(cfg)
    ensures (next, stopped) == ScanStep(PeakDetector(num, cfg, rate, bandwidth), outcome, currentFreq, results)
  {
    next, stopped := results, false;
    match outcome {
      case Raised =>
        stopped := true;
      case Captured(samples) =>
        var detected := DetectPeaksInSpectrum(num, cfg, samples, currentFreq, rate, bandwidth);
        if detected.Err? {
          stopped := true;
        } else {
          next := Record(results, currentFreq, detected.value);
        }
      case NoSamples =>
        next := Record(results, currentFreq, []);
    }
  }

  /** The scan after k + 1 centers is one more step on the scan after k, unless it stopped. */
  lemma ScanPrefixStep(detect: Detector, capture: (nat, int) -> CaptureOutcome, centers: seq<int>, k: nat)
    requires k < |centers| && !ScanPrefix(detect, capture, centers, k).1
    ensures ScanPrefix(detect, capture, centers, k + 1) ==
      ScanStep(detect, capture(k, centers[k]), centers[k], ScanPrefix(detect, capture, centers, k).0)
  {
  }

  /** Once the scan has stopped, later centers change nothing. */
  lemma {:induction false} StoppedScanStaysStopped(detect: Detector, capture: (nat, int) -> CaptureOutcome,
                                                   centers: seq<int>, k: nat, m: nat)
    requires k <= m <= |centers| && ScanPrefix(detect, capture, centers, k).1
    ensures ScanPrefix(detect, capture, centers, m) == ScanPrefix(detect, capture, centers, k)
    decreases m - k
  {
    if k < m {
      StoppedScanStaysStopped(detect, capture, centers, k, m - 1);
    }
  }

  /** What an uninterrupted scan records for one center: the detector's peaks for a
      capture, [] for a failed one. */
  function RecordedFor(detect: Detector, outcome: CaptureOutcome, center: int): seq<Peak>
    requires NeverRaises(detect)
  {
    match outcome
    case Captured(s) => detect(s, center).value
    case _ => []
  }

  /** A step with no exception records what RecordedFor says and goes on. */
  lemma UninterruptedStep(detect: Detector, outcome: CaptureOutcome, c: int, prev: ScanResults)
    requires NeverRaises(detect) && outcome != Raised
    ensures ScanStep(detect, outcome, c, prev) == (Record(prev, c, RecordedFor(detect, outcome, c)), false)
  {
  }

  /** Over strictly increasing centers and with no exception, the first k centers are all
      recorded, in order, each with the detector's result or [] for a failed capture. */
  lemma {:induction false} UninterruptedPrefix(detect: Detector, capture: (nat, int) -> CaptureOutcome,
                                               centers: seq<int>, k: nat)
    requires NeverRaises(detect) && k <= |centers|
    requires forall i, j :: 0 <= i < j < |centers| ==> centers[i] < centers[j]
    requires forall i :: 0 <= i < |centers| ==> capture(i, centers[i]) != Raised
    ensures !ScanPrefix(detect, capture, centers, k).1
    ensures forall i :: 0 <= i < k ==>
      && centers[i] in ScanPrefix(detect, capture, centers, k).0.peaks
      && ScanPrefix(detect, capture, centers, k).0.peaks[centers[i]] == RecordedFor(detect, capture(i, centers[i]), centers[i])
  {
    if k > 0 {
      UninterruptedPrefix(detect, capture, centers, k - 1);
      var prev := ScanPrefix(detect, capture, centers, k - 1).0;
      var c := centers[k - 1];
      ScanPrefixStep(detect, capture, centers, k - 1);
      UninterruptedStep(detect, capture(k - 1, c), c, prev);
      RecordKeepsEarlier(detect, capture, centers, k, prev, ScanPrefix(detect, capture, centers, k).0);
    }
  }

  /** Recording center k - 1 keeps the lists of the earlier, smaller centers. */
  lemma RecordKeepsEarlier(detect: Detector, capture: (nat, int) -> CaptureOutcome, centers: seq<int>, k: nat,
                           prev: ScanResults, res: ScanResults)
    requires NeverRaises(detect) && 0 < k <= |centers|
    requires forall i, j :: 0 <= i < j < |centers| ==> centers[i] < centers[j]
    requires forall i :: 0 <= i < k - 1 ==>
      && centers[i] in prev.peaks
      && prev.peaks[centers[i]] == RecordedFor(detect, capture(i, centers[i]), centers[i])
    requires res == Record(prev, centers[k - 1], RecordedFor(detect, capture(k - 1, centers[k - 1]), centers[k - 1]))
    ensures forall i :: 0 <= i < k ==>
      && centers[i] in res.peaks
      && res.peaks[centers[i]] == RecordedFor(detect, capture(i, centers[i]), centers[i])
  {
    forall i | 0 <= i < k
      ensures centers[i] in res.peaks
      ensures res.peaks[centers[i]] == RecordedFor(detect, capture(i, centers[i]), centers[i])
    {
      if i < k - 1 {
        assert centers[i] < centers[k - 1];
      }
    }
  }

  /** Connected, at a nonzero rate and never interrupted, the scan records every center
      from start to end in steps, ascending, each with the detector's result or [] for a
      failed capture. */
  lemma UninterruptedScanCoversAllCenters(num: Numerics, cfg: FftConfig, scan: ScanConfig,
                                          capture: (nat, int) -> CaptureOutcome, rate: int, bandwidth: int)
    requires ValidFftConfig(cfg) && scan.step > 0 && rate != 0
    requires forall i :: 0 <= i < |ScanCenters(scan)| ==> capture(i, ScanCenters(scan)[i]) != Raised
    ensures EnhancedScan(true, num, cfg, scan, capture, rate, bandwidth).centers == ScanCenters(scan)
    ensures forall i :: 0 <= i < |ScanCenters(scan)| ==>
      && ScanCenters(scan)[i] in EnhancedScan(true, num, cfg, scan, capture, rate, bandwidth).peaks
      && EnhancedScan(true, num, cfg, scan, capture, rate, bandwidth).peaks[ScanCenters(scan)[i]] ==
      RecordedFor(PeakDetector(num, cfg, rate, bandwidth), capture(i, ScanCenters(scan)[i]), ScanCenters(scan)[i])
  {
    var centers := ScanCenters(scan);
    var detect := PeakDetector(num, cfg, rate, bandwidth);
    assert NeverRaises(detect);
    ScanCentersIncreasing(scan);
    UninterruptedPrefix(detect, capture, centers, |centers|);
    ScanPrefixCenters(detect, capture, centers, |centers|);
    assert centers[..|centers|] == centers;
  }

  /** A scan whose every capture fails still records one empty list per center. */
  lemma FailedCapturesRecordEmptyLists(num: Numerics, cfg: FftConfig, scan: ScanConfig, rate: int, bandwidth: int)
    requires ValidFftConfig(cfg) && scan.step > 0 && rate != 0
    ensures var r := EnhancedScan(true, num, cfg, scan, (i: nat, c: int) => NoSamples, rate, bandwidth);
      r.centers == ScanCenters(scan) && forall c :: c in r.peaks ==> r.peaks[c] == []
  {
    var capture := (i: nat, c: int) => NoSamples;
    UninterruptedScanCoversAllCenters(num, cfg, scan, capture, rate, bandwidth);
    var r := EnhancedScan(true, num, cfg, scan, capture, rate, bandwidth);
    EnhancedScanShape(true, num, cfg, scan, capture, rate, bandwidth);
    forall c | c in r.peaks ensures r.peaks[c] == [] {
      var i :| 0 <= i < |r.centers| && r.centers[i] == c;
    }
  }

  // ---------------------------------------------------------------------------
  // analyze_scan_results (the counting part)

  datatype Summary = Summary(totalCenterFreqs: nat, centerFreqsWithPeaks: nat, allPeaks: seq<Peak>)

  /** The recorded lists in insertion order. */
  function Lists(r: ScanResults): (ls: seq<seq<Peak>>)
    requires forall i :: 0 <= i < |r.centers| ==> r.centers[i] in r.peaks
    ensures |ls| == |r.centers|
    ensures forall i :: 0 <= i < |r.centers| ==> ls[i] == r.peaks[r.centers[i]]
  {
    seq(|r.centers|, i requires 0 <= i < |r.centers| => r.peaks[r.centers[i]])
  }

  function CountNonEmpty(ls: seq<seq<Peak>>): nat
  {
    if ls == [] then 0 else CountNonEmpty(ls[..|ls| - 1]) + (if Last(ls) != [] then 1 else 0)
  }

  function Flatten(ls: seq<seq<Peak>>): seq<Peak>
  {
    if ls == [] then [] else Flatten(ls[..|ls| - 1]) + Last(ls)
  }

  /** At most every list is non-empty, and all of them are exactly when the count is full. */
  lemma {:induction false} CountNonEmptyBounds(ls: seq<seq<Peak>>)
    ensures CountNonEmpty(ls) <= |ls|
    ensures CountNonEmpty(ls) == |ls| <==> forall i :: 0 <= i < |ls| ==> ls[i] != []
  {
    if ls != [] {
      var init := ls[..|ls| - 1];
      CountNonEmptyBounds(init);
      if forall i :: 0 <= i < |ls| ==> ls[i] != [] {
        assert forall i :: 0 <= i < |init| ==> init[i] == ls[i];
      }
      if CountNonEmpty(ls) == |ls| {
        forall i | 0 <= i < |ls| ensures ls[i] != [] {
          if i < |init| {
            assert init[i] == ls[i];
          }
        }
      }
    }
  }

  /** Every peak in the concatenation comes from one of the lists, and vice versa. */
  lemma {:induction false} FlattenMembers(ls: seq<seq<Peak>>, p: Peak)
    ensures p in Flatten(ls) <==> exists i :: 0 <= i < |ls| && p in ls[i]
  {
    if ls != [] {
      var init := ls[..|ls| - 1];
      FlattenMembers(init, p);
      if p in Flatten(ls) && p !in Last(ls) {
        var i :| 0 <= i < |init| && p in init[i];
        assert ls[i] == init[i];
      }
      if exists i :: 0 <= i < |ls| && p in ls[i] {
        var i :| 0 <= i < |ls| && p in ls[i];
        if i < |ls| - 1 {
          assert init[i] == ls[i];
        }
      }
    }
  }

  /** Lists of at most `bound` peaks each concatenate to at most |ls| * bound peaks. */
  lemma {:induction false} FlattenLength(ls: seq<seq<Peak>>, bound: nat)
    requires forall i :: 0 <= i < |ls| ==> |ls[i]| <= bound
    ensures |Flatten(ls)| <= |ls| * bound
  {
    if ls != [] {
      var init := ls[..|ls| - 1];
      assert forall i :: 0 <= i < |init| ==> init[i] == ls[i];
      FlattenLength(init, bound);
      assert |init| * bound + bound == |ls| * bound;
    }
  }

  /** An empty dict reports nothing; otherwise the number of centers, how many recorded a
      peak, and all peaks in recording order. */
  method AnalyzeScanResults(r: ScanResults) returns (s: Option<Summary>)
    requires IsDict(r)
    ensures r.centers == [] ==> s == None
    ensures r.centers != [] ==> s == Some(Summary(|r.centers|, CountNonEmpty(Lists(r)), Flatten(Lists(r))))
  {
    if r.centers == [] {
      return None;
    }
    var allPeaks: seq<Peak> := [];
    var withPeaks: nat := 0;
    ghost var ls := Lists(r);
    var i := 0;
    while i < |r.centers|
      invariant 0 <= i <= |r.centers|
      invariant withPeaks == CountNonEmpty(ls[..i]) && allPeaks == Flatten(ls[..i])
    {
      var peaks := r.peaks[r.centers[i]];
      assert ls[..i + 1][..i] == ls[..i];
      if peaks != [] {
        withPeaks := withPeaks + 1;
        allPeaks := allPeaks + peaks;
      }
      i := i + 1;
    }
    assert ls[..i] == ls;
    s := Some(Summary(|r.centers|, withPeaks, allPeaks));
  }

  /** On a scan's own results: every center has a list, the centers with peaks never
      outnumber the centers, and the collected peaks are at most the cap per center. */
  lemma ScanSummaryBounds(num: Numerics, cfg: FftConfig, scan: ScanConfig, capture: (nat, int) -> CaptureOutcome,
                          rate: int, bandwidth: int)
    requires ValidFftConfig(cfg) && scan.step > 0
    ensures var r := EnhancedScan(true, num, cfg, scan, capture, rate, bandwidth);
      (forall i :: 0 <= i < |r.centers| ==> r.centers[i] in r.peaks) &&
      CountNonEmpty(Lists(r)) <= |r.centers| &&
      |Flatten(Lists(r))| <= |r.centers| * cfg.maxPeaksPerBand
  {
    var r := EnhancedScan(true, num, cfg, scan, capture, rate, bandwidth);
    EnhancedScanShape(true, num, cfg, scan, capture, rate, bandwidth);
    assert forall i :: 0 <= i < |r.centers| ==> r.centers[i] in r.peaks;
    CountNonEmptyBounds(Lists(r));
    FlattenLength(Lists(r), cfg.maxPeaksPerBand);
  }
}
