/** Values shared by the sweep, the stitcher, the peak scanner and the live processor:
    complex baseband samples, the abstract signal-processing numerics, the
    failure-carrying result types and the sequence helpers every stage uses. */
module Signal {

  datatype Option<T> = None | Some(value: T)

  /** The Python exception classes the modelled code can raise. */
  datatype Error = TypeError | ValueError | IndexError | ZeroDivisionError

  datatype Result<T> = Ok(value: T) | Err(error: Error)

  /** One complex baseband sample. */
  datatype Complex = Complex(re: real, im: real)

  const ZeroSample: Complex := Complex(0.0, 0.0)

  /** The sweep configuration: centers `start, start + step, ...` up to `end`. */
  datatype ScanConfig = ScanConfig(start: int, end: int, step: int)

  /** The configured sweep: 1.4 GHz to 1.9 GHz in 20 MHz steps. */
  const DefaultScanConfig: ScanConfig := ScanConfig(1400000000, 1900000000, 20000000)

  /** The floating-point numerics the model does not interpret: the Hann window,
      the discrete Fourier transform, the complex magnitude, log10, and the value
      numpy stores when it divides by zero (inf or nan, which no real number is). */
  datatype Numerics = Numerics(
    hann: (nat, nat) -> real,              // hann(k, n): coefficient k of the n-point window
    dft: (seq<Complex>, nat) -> Complex,   // dft(x, k): bin k of the transform of x
    magnitude: Complex -> real,            // |z|
    log10: real -> real,
    divideByZero: real -> real)

  /** numpy's elementwise `a / b`: exact when b is nonzero, an uninterpreted value otherwise. */
  function Divide(num: Numerics, a: real, b: real): (r: real)
    ensures b != 0.0 ==> r * b == a
  {
    if b == 0.0 then num.divideByZero(a) else a / b
  }

  function Scaled(z: Complex, w: real): Complex
  {
    Complex(z.re * w, z.im * w)
  }

  function Min(a: int, b: int): int { if a <= b then a else b }

  function Max(a: int, b: int): int { if a >= b then a else b }

  function Abs(a: int): nat { if a < 0 then -a else a }

  function MaxReal(a: real, b: real): real { if a >= b then a else b }

  /** Python's `int(x)` on a float: truncation toward zero. */
  function Trunc(x: real): (r: int)
    ensures x >= 0.0 ==> r as real <= x < r as real + 1.0
    ensures x < 0.0 ==> r as real - 1.0 < x <= r as real
  {
    if x >= 0.0 then x.Floor else -((-x).Floor)
  }

  function Sum(s: seq<real>): real
  {
    if s == [] then 0.0 else s[0] + Sum(s[1..])
  }

  lemma {:induction false} SumAppend(s: seq<real>, t: seq<real>)
    ensures Sum(s + t) == Sum(s) + Sum(t)
  {
    if s == [] {
      assert s + t == t;
    } else {
      assert (s + t)[1..] == s[1..] + t;
      SumAppend(s[1..], t);
    }
  }

  /** A run of equal values sums to its length times the value. */
  lemma {:induction false} SumConstant(s: seq<real>, c: real)
    requires forall k :: 0 <= k < |s| ==> s[k] == c
    ensures Sum(s) == |s| as real * c
  {
    if s != [] {
      SumConstant(s[1..], c);
    }
  }

  /** Python's `range(start, stop, step)`. */
  function PyRange(start: int, stop: int, step: int): (r: seq<int>)
    requires step != 0
    ensures forall i :: 0 <= i < |r| ==> r[i] == start + i * step
    ensures forall i :: 0 <= i < |r| ==> if step > 0 then r[i] < stop else r[i] > stop
    ensures step > 0 ==> start + |r| * step >= stop
    ensures step < 0 ==> start + |r| * step <= stop
    decreases if step > 0 then stop - start else start - stop
  {
    if (step > 0 && start < stop) || (step < 0 && start > stop) then
      var rest := PyRange(start + step, stop, step);
      RangeStep(start, step, rest);
      [start] + rest
    else []
  }

  lemma RangeStep(start: int, step: int, rest: seq<int>)
    requires forall i :: 0 <= i < |rest| ==> rest[i] == start + step + i * step
    ensures forall i :: 0 <= i < |[start] + rest| ==> ([start] + rest)[i] == start + i * step
    ensures start + step + |rest| * step == start + (|rest| + 1) * step
  {
    forall i | 0 <= i < |[start] + rest| ensures ([start] + rest)[i] == start + i * step {
      if i > 0 {
        assert ([start] + rest)[i] == rest[i - 1];
        assert start + step + (i - 1) * step == start + i * step;
      }
    }
  }

  /** `range(start, end + 1, step)` with a positive step and end >= start has
      (end - start) // step + 1 elements. */
  lemma RangeCount(start: int, end: int, step: int)
    requires step > 0 && end >= start
    ensures |PyRange(start, end + 1, step)| == (end - start) / step + 1
  {
    var q := (end - start) / step;
    DivBounds(end - start, step);
    RangeIndex(start, end + 1, step, q);
    RangeIndex(start, end + 1, step, q + 1);
  }

  /** Euclidean division by a positive divisor brackets the dividend. */
  lemma DivBounds(d: int, step: int)
    requires step > 0
    ensures (d / step) * step <= d < (d / step + 1) * step
  {
    assert d == (d / step) * step + d % step;
    assert (d / step + 1) * step == (d / step) * step + step;
  }

  /** Index i is inside `range(start, stop, step)` exactly when start + i * step is
      below stop, for a positive step. */
  lemma RangeIndex(start: int, stop: int, step: int, i: nat)
    requires step > 0
    ensures i < |PyRange(start, stop, step)| <==> start + i * step < stop
    ensures i < |PyRange(start, stop, step)| ==> PyRange(start, stop, step)[i] == start + i * step
  {
    var r := PyRange(start, stop, step);
    if i >= |r| {
      MulMono(|r|, i, step);
      assert start + i * step >= start + |r| * step >= stop;
    } else {
      assert r[i] == start + i * step < stop;
    }
  }

  /** An exact multiple divides back to its factor. */
  lemma ExactQuotient(q: int, step: int)
    requires step > 0
    ensures (q * step) / step == q
  {
    DivBounds(q * step, step);
    var k := (q * step) / step;
    if k < q {
      MulMono(k + 1, q, step);
    } else if k > q {
      MulMono(q + 1, k, step);
    }
  }

  lemma MulMono(a: int, b: int, c: int)
    requires a <= b && c > 0
    ensures a * c <= b * c
  {
  }

  ghost predicate StrictlyIncreasing(s: seq<real>)
  {
    forall i, j :: 0 <= i < j < |s| ==> s[i] < s[j]
  }

  ghost predicate NonDecreasing(s: seq<real>)
  {
    forall i, j :: 0 <= i <= j < |s| ==> s[i] <= s[j]
  }

  function Last<T>(s: seq<T>): T
    requires |s| > 0
  {
    s[|s| - 1]
  }

  function Zeros(n: nat): (r: seq<real>)
    ensures |r| == n && forall k :: 0 <= k < n ==> r[k] == 0.0
  {
    seq(n, _ => 0.0)
  }

  /** Cut `s` to its first n samples, or zero-pad it at the tail up to n. */
  function FitLength(s: seq<Complex>, n: nat): (r: seq<Complex>)
    ensures |r| == n
    ensures forall k :: 0 <= k < n && k < |s| ==> r[k] == s[k]
    ensures forall k :: |s| <= k < n ==> r[k] == ZeroSample
  {
    if |s| > n then s[..n]
    else if |s| < n then s + seq(n - |s|, _ => ZeroSample)
    else s
  }

  /** `numpy.arange(n) * (rate / n) + (center - rate // 2)`. */
  function LinearAxis(center: int, rate: int, n: nat): (r: seq<real>)
    requires n > 0
    ensures |r| == n
    ensures forall k :: 0 <= k < n ==> r[k] == (center - rate / 2) as real + k as real * (rate as real / n as real)
    ensures r[0] == (center - rate / 2) as real
    ensures forall k :: 0 <= k < n - 1 ==> r[k + 1] - r[k] == rate as real / n as real
    ensures rate > 0 ==> StrictlyIncreasing(r) && r[n - 1] < (center - rate / 2 + rate) as real
  {
    var r := Progression((center - rate / 2) as real, rate as real / n as real, n);
    if rate > 0 then
      BinsBelowRate((center - rate / 2) as real, rate, n);
      r
    else r
  }

  /** `base + arange(n) * step`. */
  function Progression(base: real, step: real, n: nat): (r: seq<real>)
    ensures |r| == n
    ensures forall k :: 0 <= k < n ==> r[k] == base + k as real * step
    ensures forall k :: 0 <= k < n - 1 ==> r[k + 1] - r[k] == step
    ensures step > 0.0 ==> StrictlyIncreasing(r)
  {
    var r := seq(n, k => base + k as real * step);
    ProgressionFacts(r, base, step);
    r
  }

  /** n bins of width rate / n from base: the spacing is positive and the last bin sits
      strictly below base + rate. */
  lemma BinsBelowRate(base: real, rate: int, n: nat)
    requires n > 0 && rate > 0
    ensures rate as real / n as real > 0.0
    ensures base + (n - 1) as real * (rate as real / n as real) < base + rate as real
  {
    StepTimesCount(rate, n);
    MulStrictMono((n - 1) as real, n as real, rate as real / n as real);
  }

  /** An arithmetic progression has constant differences, and a positive step makes it strictly increasing. */
  lemma ProgressionFacts(r: seq<real>, base: real, step: real)
    requires forall k :: 0 <= k < |r| ==> r[k] == base + k as real * step
    ensures forall k :: 0 <= k < |r| - 1 ==> r[k + 1] - r[k] == step
    ensures step > 0.0 ==> StrictlyIncreasing(r)
  {
    forall k | 0 <= k < |r| - 1 ensures r[k + 1] - r[k] == step {
      assert (k + 1) as real * step == k as real * step + step;
    }
    if step > 0.0 {
      forall i, j | 0 <= i < j < |r| ensures r[i] < r[j] {
        ProgressionPair(r, base, step, i, j);
      }
    }
  }

  lemma ProgressionPair(r: seq<real>, base: real, step: real, i: int, j: int)
    requires 0 <= i < j < |r| && step > 0.0
    requires r[i] == base + i as real * step && r[j] == base + j as real * step
    ensures r[i] < r[j]
  {
    assert (j as real) * step - (i as real) * step == (j - i) as real * step;
  }

  lemma StepTimesCount(rate: int, n: nat)
    requires n > 0
    ensures n as real * (rate as real / n as real) == rate as real
  {
  }

  lemma MulStrictMono(a: real, b: real, c: real)
    requires a < b && c > 0.0
    ensures a * c < b * c
  {
  }

  /** `numpy.fft.fftshift`: rotate by n // 2 so that bin 0 lands at index n // 2. */
  function FftShift<T>(x: seq<T>): (r: seq<T>)
    ensures |r| == |x|
    ensures forall i :: |x| / 2 <= i < |x| ==> r[i] == x[i - |x| / 2]
    ensures forall i :: 0 <= i < |x| / 2 ==> r[i] == x[i + |x| - |x| / 2]
  {
    var n := |x|;
    var r := seq(n, i requires 0 <= i < n => x[(i + n - n / 2) % n]);
    FftShiftIndex(x, r);
    r
  }

  /** Bin i of the shifted sequence is bin (i + n - n // 2) % n of the original. */
  lemma FftShiftAt<T>(x: seq<T>)
    ensures forall i :: 0 <= i < |x| ==> FftShift(x)[i] == x[(i + |x| - |x| / 2) % |x|]
  {
  }

  lemma FftShiftIndex<T>(x: seq<T>, r: seq<T>)
    requires |r| == |x| && forall i :: 0 <= i < |x| ==> r[i] == x[(i + |x| - |x| / 2) % |x|]
    ensures forall i :: |x| / 2 <= i < |x| ==> r[i] == x[i - |x| / 2]
    ensures forall i :: 0 <= i < |x| / 2 ==> r[i] == x[i + |x| - |x| / 2]
  {
    var n := |x|;
    forall i | n / 2 <= i < n ensures r[i] == x[i - n / 2] {
      ModBelowTwice(i + n - n / 2, n);
    }
    forall i | 0 <= i < n / 2 ensures r[i] == x[i + n - n / 2] {
      ModBelowOnce(i + n - n / 2, n);
    }
  }

  lemma ModBelowOnce(a: int, n: int)
    requires 0 <= a < n
    ensures a % n == a
  {
  }

  lemma ModBelowTwice(a: int, n: int)
    requires n > 0 && n <= a < 2 * n
    ensures a % n == a - n
  {
  }

  function HannWindow(num: Numerics, n: nat): (r: seq<real>)
    ensures |r| == n
  {
    seq(n, k requires 0 <= k < n => num.hann(k, n))
  }

  /** Floors a power value at 1e-12, as `numpy.maximum(psd, 1e-12)` does before log10. */
  function FloorPower(x: real): (r: real)
    ensures r >= 0.000000000001
    ensures x >= 0.000000000001 ==> r == x
    ensures x <= 0.000000000001 ==> r == 0.000000000001
  {
    MaxReal(x, 0.000000000001)
  }

  /** `10 * log10(max(x, 1e-12))`. */
  function PowerDb(num: Numerics, x: real): real
  {
    10.0 * num.log10(FloorPower(x))
  }

  /** `x * window`: each sample scaled by its Hann coefficient. */
  function Windowed(num: Numerics, x: seq<Complex>): (r: seq<Complex>)
    ensures |r| == |x|
    ensures forall k :: 0 <= k < |x| ==> r[k] == Scaled(x[k], num.hann(k, |x|))
  {
    seq(|x|, k requires 0 <= k < |x| => Scaled(x[k], num.hann(k, |x|)))
  }

  /** PowerDb bin by bin. */
  function PowerDbAll(num: Numerics, s: seq<real>): (r: seq<real>)
    ensures |r| == |s| && forall k :: 0 <= k < |s| ==> r[k] == PowerDb(num, s[k])
  {
    seq(|s|, k requires 0 <= k < |s| => PowerDb(num, s[k]))
  }

  /** `abs(z) ** 2`. */
  function SquaredMagnitude(num: Numerics, z: Complex): real
  {
    num.magnitude(z) * num.magnitude(z)
  }

  /** `rate * sum(window)`, the periodogram's normaliser. */
  function PsdScale(num: Numerics, n: nat, rate: int): real
  {
    rate as real * Sum(HannWindow(num, n))
  }

  /** The normalised periodogram `|fft(x * window)|**2 / (rate * sum(window))`, bin by bin. */
  function Periodogram(num: Numerics, x: seq<Complex>, rate: int): (r: seq<real>)
    ensures |r| == |x|
  {
    var w := Windowed(num, x);
    var norm := PsdScale(num, |x|, rate);
    seq(|x|, k requires 0 <= k < |x| => Divide(num, SquaredMagnitude(num, num.dft(w, k)), norm))
  }

  lemma PeriodogramBin(num: Numerics, x: seq<Complex>, rate: int, k: nat)
    requires k < |x|
    ensures Periodogram(num, x, rate)[k] ==
      Divide(num, SquaredMagnitude(num, num.dft(Windowed(num, x), k)), PsdScale(num, |x|, rate))
  {
  }
}
