/** Cross-segment logic of the sweep (src/utils/spectrum.py): overlap detection,
    median gain normalisation, the ordered merge of per-segment spectra and the
    final box smoothing. */
module Stitch {
  import opened Signal

  /** A frequency axis with its power values. */
  datatype Spectrum = Spectrum(freqs: seq<real>, psd: seq<real>)

  // ---------------------------------------------------------------------------
  // find_overlap_regions

  /** The indices k >= from of `a`, ascending, whose value lies in [lo, hi]. */
  function IndicesWithin(a: seq<real>, lo: real, hi: real, from: nat): (r: seq<nat>)
    requires from <= |a|
    ensures forall t :: 0 <= t < |r| ==> from <= r[t] < |a| && lo <= a[r[t]] <= hi
    ensures forall t, u :: 0 <= t < u < |r| ==> r[t] < r[u]
    ensures forall k :: from <= k < |a| && lo <= a[k] <= hi ==> k in r
    decreases |a| - from
  {
    if from == |a| then []
    else (if lo <= a[from] <= hi then [from] else []) + IndicesWithin(a, lo, hi, from + 1)
  }

  /** The bins of each axis that fall inside the other axis's span; an empty axis raises IndexError. */
  function FindOverlapRegions(freq1: seq<real>, freq2: seq<real>): (r: Result<(seq<nat>, seq<nat>)>)
    ensures r.Ok? <==> |freq1| > 0 && |freq2| > 0
    ensures r.Ok? ==> forall k :: 0 <= k < |freq1| ==>
      (k in r.value.0 <==> freq2[0] <= freq1[k] <= Last(freq2))
    ensures r.Ok? ==> forall k :: 0 <= k < |freq2| ==>
      (k in r.value.1 <==> freq1[0] <= freq2[k] <= Last(freq1))
    ensures r.Ok? ==> forall t, u :: 0 <= t < u < |r.value.0| ==> r.value.0[t] < r.value.0[u]
    ensures r.Ok? ==> forall t, u :: 0 <= t < u < |r.value.1| ==> r.value.1[t] < r.value.1[u]
  {
    if |freq1| == 0 || |freq2| == 0 then Err(IndexError)
    else Ok((IndicesWithin(freq1, freq2[0], Last(freq2), 0), IndicesWithin(freq2, freq1[0], Last(freq1), 0)))
  }

  // ---------------------------------------------------------------------------
  // calculate_gain_corrections

  function InsertAscending(x: real, s: seq<real>): (r: seq<real>)
    ensures |r| == |s| + 1
  {
    if s == [] || x <= s[0] then [x] + s
    else [s[0]] + InsertAscending(x, s[1..])
  }

  lemma {:induction false} InsertAscendingPermutes(x: real, s: seq<real>)
    ensures multiset(InsertAscending(x, s)) == multiset(s) + multiset{x}
  {
    if s != [] && s[0] < x {
      InsertAscendingPermutes(x, s[1..]);
      assert s == [s[0]] + s[1..];
    }
  }

  /** Inserting into a sorted row keeps it sorted. */
  lemma {:induction false} InsertAscendingSorted(x: real, s: seq<real>)
    requires NonDecreasing(s)
    ensures NonDecreasing(InsertAscending(x, s))
  {
    if s == [] || x <= s[0] {
      forall t | 0 <= t < |s| ensures x <= s[t] {
        assert s[0] <= s[t];
      }
      PrependNonDecreasing(x, s);
    } else {
      InsertAscendingSorted(x, s[1..]);
      InsertedAboveHead(x, s);
      PrependNonDecreasing(s[0], InsertAscending(x, s[1..]));
    }
  }

  /** A head at most every value of a sorted tail keeps it sorted. */
  lemma PrependNonDecreasing(h: real, t: seq<real>)
    requires NonDecreasing(t) && forall u :: 0 <= u < |t| ==> h <= t[u]
    ensures NonDecreasing([h] + t)
  {
    var r := [h] + t;
    forall i, j | 0 <= i <= j < |r| ensures r[i] <= r[j] {
      if i > 0 {
        assert r[i] == t[i - 1] && r[j] == t[j - 1];
      } else if j > 0 {
        assert r[j] == t[j - 1];
      }
    }
  }

  /** When x is above the head, everything it is inserted among stays at or above the head. */
  lemma InsertedAboveHead(x: real, s: seq<real>)
    requires NonDecreasing(s) && s != [] && s[0] < x
    ensures forall t :: 0 <= t < |InsertAscending(x, s[1..])| ==> s[0] <= InsertAscending(x, s[1..])[t]
  {
    var rest := InsertAscending(x, s[1..]);
    InsertAscendingPermutes(x, s[1..]);
    forall t | 0 <= t < |rest| ensures s[0] <= rest[t] {
      assert rest[t] in multiset(rest);
      if rest[t] != x {
        assert rest[t] in multiset(s[1..]);
        var u :| 0 <= u < |s[1..]| && s[1..][u] == rest[t];
        assert s[u + 1] == rest[t];
      }
    }
  }

  /** `numpy.sort` of a row. */
  function SortAscending(s: seq<real>): (r: seq<real>)
    ensures |r| == |s|
  {
    if s == [] then [] else InsertAscending(s[0], SortAscending(s[1..]))
  }

  /** Sorting rearranges the row without adding or losing a value. */
  lemma {:induction false} SortAscendingPermutes(s: seq<real>)
    ensures multiset(SortAscending(s)) == multiset(s)
  {
    if s != [] {
      SortAscendingPermutes(s[1..]);
      InsertAscendingPermutes(s[0], SortAscending(s[1..]));
      assert s == [s[0]] + s[1..];
    }
  }

  /** The sorted row is in ascending order. */
  lemma {:induction false} SortAscendingSorted(s: seq<real>)
    ensures NonDecreasing(SortAscending(s))
  {
    if s != [] {
      SortAscendingSorted(s[1..]);
      InsertAscendingSorted(s[0], SortAscending(s[1..]));
    }
  }

  /** `numpy.median`: the middle of the sorted row, or the mean of the two middles. */
  function Median(s: seq<real>): real
    requires |s| > 0
  {
    var t := SortAscending(s);
    var m := |t|;
    if m % 2 == 1 then t[m / 2] else (t[m / 2 - 1] + t[m / 2]) / 2.0
  }

  /** The median lies between the smallest and the largest value of the row. */
  lemma MedianWithinRow(s: seq<real>)
    requires |s| > 0
    ensures exists i :: 0 <= i < |s| && s[i] <= Median(s)
    ensures exists j :: 0 <= j < |s| && Median(s) <= s[j]
  {
    var t := SortAscending(s);
    SortAscendingSorted(s);
    SortAscendingPermutes(s);
    var m := |t|;
    var a := if m % 2 == 1 then m / 2 else m / 2 - 1;
    var b := m / 2;
    assert t[a] <= Median(s) <= t[b];
    assert t[a] in multiset(s) && t[b] in multiset(s);
    var i :| 0 <= i < |s| && s[i] == t[a];
    var j :| 0 <= j < |s| && s[j] == t[b];
  }

  /** The median of every row. */
  function Medians(segments: seq<seq<real>>): (r: seq<real>)
    requires forall i :: 0 <= i < |segments| ==> |segments[i]| > 0
    ensures |r| == |segments| && forall i :: 0 <= i < |segments| ==> r[i] == Median(segments[i])
  {
    seq(|segments|, i requires 0 <= i < |segments| => Median(segments[i]))
  }

  /** Entry 0 is 1; entry i is medians[0] / medians[i]. */
  function Normalisers(num: Numerics, medians: seq<real>): (r: seq<real>)
    requires |medians| > 0
    ensures |r| == |medians| && r[0] == 1.0
    ensures forall i :: 1 <= i < |medians| && medians[i] != 0.0 ==> r[i] * medians[i] == medians[0]
  {
    seq(|medians|, i requires 0 <= i < |medians| => if i == 0 then 1.0 else Divide(num, medians[0], medians[i]))
  }

  /** Entry 0 is 1; entry i is median(row 0) / median(row i). No rows raises IndexError. */
  function GainCorrections(num: Numerics, segments: seq<seq<real>>): (r: Result<seq<real>>)
    requires forall i :: 0 <= i < |segments| ==> |segments[i]| > 0
    ensures r.Ok? <==> |segments| > 0
    ensures r.Ok? ==> |r.value| == |segments| && r.value[0] == 1.0
    ensures r.Ok? ==> forall i :: 1 <= i < |segments| && Median(segments[i]) != 0.0 ==>
      r.value[i] * Median(segments[i]) == Median(segments[0])
  {
    if |segments| == 0 then Err(IndexError) else Ok(Normalisers(num, Medians(segments)))
  }

  method CalculateGainCorrections(num: Numerics, segments: seq<seq<real>>) returns (r: Result<seq<real>>)
    requires forall i :: 0 <= i < |segments| ==> |segments[i]| > 0
    ensures r == GainCorrections(num, segments)
  {
    if |segments| == 0 {
      return Err(IndexError);
    }
    var corrections := new real[|segments|](_ => 1.0);
    var reference := Median(segments[0]);
    for i := 1 to |segments|
      invariant corrections[0] == 1.0
      invariant forall k :: 1 <= k < i ==> corrections[k] == Divide(num, reference, Median(segments[k]))
    {
      var current := Median(segments[i]);
      corrections[i] := Divide(num, reference, current);
    }
    GainCorrectionsEntries(num, segments, corrections[..]);
    r := Ok(corrections[..]);
  }

  /** The corrections are 1 for row 0 and median(row 0) / median(row i) for the others. */
  lemma GainCorrectionsEntries(num: Numerics, segments: seq<seq<real>>, c: seq<real>)
    requires forall i :: 0 <= i < |segments| ==> |segments[i]| > 0
    requires |c| == |segments| > 0 && c[0] == 1.0
    requires forall k :: 1 <= k < |c| ==> c[k] == Divide(num, Median(segments[0]), Median(segments[k]))
    ensures GainCorrections(num, segments) == Ok(c)
  {
    var meds := Medians(segments);
    var spec := Normalisers(num, meds);
    forall k | 0 <= k < |c| ensures c[k] == spec[k] {
      if k > 0 {
        assert meds[0] == Median(segments[0]) && meds[k] == Median(segments[k]);
      }
    }
    assert c == spec;
  }

  // ---------------------------------------------------------------------------
  // numpy.searchsorted(a, x, side='left')

  /** numpy's bisection on a[lo..hi) for the left insertion point of x. */
  function BisectLeft(a: seq<real>, x: real, lo: nat, hi: nat): (k: nat)
    requires lo <= hi <= |a|
    ensures lo <= k <= hi
    decreases hi - lo
  {
    if lo == hi then lo
    else
      var mid := lo + (hi - lo) / 2;
      if a[mid] < x then BisectLeft(a, x, mid + 1, hi) else BisectLeft(a, x, lo, mid)
  }

  /** On a sorted axis the bisection returns the first index whose value is at least x. */
  lemma {:induction false} BisectLeftFindsFirstAtLeast(a: seq<real>, x: real, lo: nat, hi: nat)
    requires lo <= hi <= |a| && NonDecreasing(a)
    requires forall j :: 0 <= j < lo ==> a[j] < x
    requires forall j :: hi <= j < |a| ==> a[j] >= x
    ensures forall j :: 0 <= j < BisectLeft(a, x, lo, hi) ==> a[j] < x
    ensures forall j :: BisectLeft(a, x, lo, hi) <= j < |a| ==> a[j] >= x
    decreases hi - lo
  {
    if lo < hi {
      var mid := lo + (hi - lo) / 2;
      if a[mid] < x {
        BisectLeftFindsFirstAtLeast(a, x, mid + 1, hi);
      } else {
        BisectLeftFindsFirstAtLeast(a, x, lo, mid);
      }
    }
  }

  /** The first index of a sorted axis whose value is at least x. */
  lemma SearchSortedIsFirstAtLeast(a: seq<real>, x: real)
    ensures NonDecreasing(a) ==> forall j :: 0 <= j < BisectLeft(a, x, 0, |a|) ==> a[j] < x
    ensures NonDecreasing(a) ==> forall j :: BisectLeft(a, x, 0, |a|) <= j < |a| ==> a[j] >= x
  {
    if NonDecreasing(a) {
      BisectLeftFindsFirstAtLeast(a, x, 0, |a|);
    }
  }

  method SearchSortedLeft(a: seq<real>, x: real) returns (k: nat)
    ensures k == BisectLeft(a, x, 0, |a|)
    ensures NonDecreasing(a) ==> (forall j :: 0 <= j < k ==> a[j] < x) && (forall j :: k <= j < |a| ==> a[j] >= x)
  {
    var lo, hi := 0, |a|;
    while lo < hi
      invariant 0 <= lo <= hi <= |a|
      invariant BisectLeft(a, x, lo, hi) == BisectLeft(a, x, 0, |a|)
      decreases hi - lo
    {
      var mid := lo + (hi - lo) / 2;
      if a[mid] < x {
        lo := mid + 1;
      } else {
        hi := mid;
      }
    }
    k := lo;
    SearchSortedIsFirstAtLeast(a, x);
  }

  // ---------------------------------------------------------------------------
  // stitch_segments_with_overlap_handling

  function ScaleAll(s: seq<real>, g: real): (r: seq<real>)
    ensures |r| == |s| && forall k :: 0 <= k < |s| ==> r[k] == s[k] * g
  {
    seq(|s|, k requires 0 <= k < |s| => s[k] * g)
  }

  /** Where the next segment starts contributing: 0 when it lies wholly above the
      accumulated axis, else numpy's left insertion point of the accumulated last bin. */
  function MergeStart(cur: seq<real>, next: seq<real>): (k: nat)
    requires |cur| > 0 && |next| > 0
    ensures k <= |next|
  {
    if Last(cur) < next[0] then 0 else BisectLeft(next, Last(cur), 0, |next|)
  }

  /** One step of the merge: concatenate the whole next segment, or only its tail past the overlap. */
  function MergeNext(cur: Spectrum, nextFreqs: seq<real>, nextPsd: seq<real>): Spectrum
    requires |cur.freqs| > 0 && |nextFreqs| > 0 && |nextPsd| == |nextFreqs|
  {
    if Last(cur.freqs) < nextFreqs[0] then
      Spectrum(cur.freqs + nextFreqs, cur.psd + nextPsd)
    else
      var k := BisectLeft(nextFreqs, Last(cur.freqs), 0, |nextFreqs|);
      if k < |nextFreqs| then Spectrum(cur.freqs + nextFreqs[k..], cur.psd + nextPsd[k..])
      else cur
  }

  /** The merge appends exactly next[k..] with k = MergeStart, powers and bins alike;
      on a sorted next axis k is the first bin at or above the accumulated last bin. */
  lemma MergeNextAppendsTail(cur: Spectrum, nextFreqs: seq<real>, nextPsd: seq<real>)
    requires |cur.freqs| > 0 && |nextFreqs| > 0 && |nextPsd| == |nextFreqs|
    ensures var k := MergeStart(cur.freqs, nextFreqs);
      MergeNext(cur, nextFreqs, nextPsd) == Spectrum(cur.freqs + nextFreqs[k..], cur.psd + nextPsd[k..])
    ensures NonDecreasing(nextFreqs) ==> var k := MergeStart(cur.freqs, nextFreqs);
      (forall j :: 0 <= j < k ==> nextFreqs[j] < Last(cur.freqs)) &&
      (forall j :: k <= j < |nextFreqs| ==> nextFreqs[j] >= Last(cur.freqs))
  {
    var k := MergeStart(cur.freqs, nextFreqs);
    if k == |nextFreqs| {
      assert nextFreqs[k..] == [] && nextPsd[k..] == [];
      assert cur.freqs + [] == cur.freqs && cur.psd + [] == cur.psd;
    }
    if Last(cur.freqs) < nextFreqs[0] {
      assert nextFreqs[0..] == nextFreqs && nextPsd[0..] == nextPsd;
    } else {
      SearchSortedIsFirstAtLeast(nextFreqs, Last(cur.freqs));
    }
  }

  /** The rows the stitcher is given: as many axes as power rows and gains, each axis
      non-empty and as long as its power row. */
  ghost predicate WellFormed(psds: seq<seq<real>>, freqs: seq<seq<real>>, gains: seq<real>)
  {
    && |psds| >= 1
    && |freqs| == |psds|
    && |gains| == |psds|
    && forall i :: 0 <= i < |psds| ==> |freqs[i]| > 0 && |psds[i]| == |freqs[i]|
  }

  /** Total number of bins in the first m rows. */
  function BinsUpTo(rows: seq<seq<real>>, m: nat): nat
    requires m <= |rows|
  {
    if m == 0 then 0 else BinsUpTo(rows, m - 1) + |rows[m - 1]|
  }

  /** The accumulated spectrum after merging the first m segments. */
  function StitchPrefix(psds: seq<seq<real>>, freqs: seq<seq<real>>, gains: seq<real>, m: nat): (r: Spectrum)
    requires WellFormed(psds, freqs, gains) && 1 <= m <= |psds|
    ensures |r.freqs| == |r.psd|
    ensures |freqs[0]| <= |r.freqs| <= BinsUpTo(freqs, m)
    ensures r.freqs[..|freqs[0]|] == freqs[0] && r.psd[..|psds[0]|] == psds[0]
    decreases m
  {
    if m == 1 then
      assert freqs[0][..|freqs[0]|] == freqs[0] && psds[0][..|psds[0]|] == psds[0];
      Spectrum(freqs[0], psds[0])
    else
      var cur := StitchPrefix(psds, freqs, gains, m - 1);
      var r := MergeNext(cur, freqs[m - 1], ScaleAll(psds[m - 1], gains[m - 1]));
      MergeNextAppendsTail(cur, freqs[m - 1], ScaleAll(psds[m - 1], gains[m - 1]));
      PrefixSurvivesAppend(cur.freqs, freqs[m - 1][MergeStart(cur.freqs, freqs[m - 1])..], |freqs[0]|);
      PrefixSurvivesAppend(cur.psd, ScaleAll(psds[m - 1], gains[m - 1])[MergeStart(cur.freqs, freqs[m - 1])..], |psds[0]|);
      r
  }

  lemma PrefixSurvivesAppend(a: seq<real>, b: seq<real>, n: nat)
    requires n <= |a|
    ensures (a + b)[..n] == a[..n]
  {
  }

  method StitchSegmentsWithOverlapHandling(psds: seq<seq<real>>, freqs: seq<seq<real>>, gains: seq<real>)
    returns (r: Spectrum)
    requires WellFormed(psds, freqs, gains)
    ensures r == StitchPrefix(psds, freqs, gains, |psds|)
  {
    var currentFreqs := freqs[0];
    var currentPsd := psds[0];
    for i := 1 to |psds|
      invariant Spectrum(currentFreqs, currentPsd) == StitchPrefix(psds, freqs, gains, i)
    {
      var nextFreqs := freqs[i];
      var nextPsd := ScaleAll(psds[i], gains[i]);
      if Last(currentFreqs) < nextFreqs[0] {
        currentFreqs := currentFreqs + nextFreqs;
        currentPsd := currentPsd + nextPsd;
      } else {
        var overlapStart := SearchSortedLeft(nextFreqs, Last(currentFreqs));
        if overlapStart < |nextFreqs| {
          currentFreqs := currentFreqs + nextFreqs[overlapStart..];
          currentPsd := currentPsd + nextPsd[overlapStart..];
        }
      }
    }
    r := Spectrum(currentFreqs, currentPsd);
  }

  /** Bin j of segment i carries frequency f and power v: segment 0 verbatim,
      later segments with their power multiplied by gains[i]. */
  ghost predicate FromSegment(psds: seq<seq<real>>, freqs: seq<seq<real>>, gains: seq<real>, i: int, j: int, f: real, v: real)
  {
    && 0 <= i < |freqs| && i < |psds| && i < |gains|
    && 0 <= j < |freqs[i]| && j < |psds[i]|
    && f == freqs[i][j]
    && v == (if i == 0 then psds[0][j] else psds[i][j] * gains[i])
  }

  /** Every stitched bin is bin j of some segment i < m, with that segment's gain applied. */
  lemma {:induction false} StitchProvenance(psds: seq<seq<real>>, freqs: seq<seq<real>>, gains: seq<real>, m: nat, p: nat)
    requires WellFormed(psds, freqs, gains) && 1 <= m <= |psds|
    requires p < |StitchPrefix(psds, freqs, gains, m).freqs|
    ensures exists i, j :: (0 <= i < m &&
      FromSegment(psds, freqs, gains, i, j, StitchPrefix(psds, freqs, gains, m).freqs[p], StitchPrefix(psds, freqs, gains, m).psd[p]))
    decreases m
  {
    var r := StitchPrefix(psds, freqs, gains, m);
    if m == 1 {
      assert FromSegment(psds, freqs, gains, 0, p, r.freqs[p], r.psd[p]);
    } else {
      var cur := StitchPrefix(psds, freqs, gains, m - 1);
      var scaled := ScaleAll(psds[m - 1], gains[m - 1]);
      MergeNextAppendsTail(cur, freqs[m - 1], scaled);
      var k := MergeStart(cur.freqs, freqs[m - 1]);
      if p < |cur.freqs| {
        assert r.freqs[p] == cur.freqs[p] && r.psd[p] == cur.psd[p];
        StitchProvenance(psds, freqs, gains, m - 1, p);
        var i, j :| 0 <= i < m - 1 && FromSegment(psds, freqs, gains, i, j, cur.freqs[p], cur.psd[p]);
        assert FromSegment(psds, freqs, gains, i, j, r.freqs[p], r.psd[p]);
      } else {
        var j := k + (p - |cur.freqs|);
        assert r.freqs[p] == freqs[m - 1][j] && r.psd[p] == scaled[j];
        assert FromSegment(psds, freqs, gains, m - 1, j, r.freqs[p], r.psd[p]);
      }
    }
  }

  lemma ConcatNonDecreasing(a: seq<real>, b: seq<real>)
    requires |a| > 0 && NonDecreasing(a) && NonDecreasing(b)
    requires forall j :: 0 <= j < |b| ==> Last(a) <= b[j]
    ensures NonDecreasing(a + b)
  {
  }

  lemma ConcatStrictlyIncreasing(a: seq<real>, b: seq<real>)
    requires |a| > 0 && StrictlyIncreasing(a) && StrictlyIncreasing(b)
    requires forall j :: 0 <= j < |b| ==> Last(a) < b[j]
    ensures StrictlyIncreasing(a + b)
  {
  }

  /** If every segment axis is sorted, the stitched axis is sorted (repeats allowed). */
  lemma {:induction false} StitchNonDecreasing(psds: seq<seq<real>>, freqs: seq<seq<real>>, gains: seq<real>, m: nat)
    requires WellFormed(psds, freqs, gains) && 1 <= m <= |psds|
    requires forall i :: 0 <= i < |freqs| ==> NonDecreasing(freqs[i])
    ensures NonDecreasing(StitchPrefix(psds, freqs, gains, m).freqs)
    decreases m
  {
    if m > 1 {
      var cur := StitchPrefix(psds, freqs, gains, m - 1);
      var next := freqs[m - 1];
      var scaled := ScaleAll(psds[m - 1], gains[m - 1]);
      StitchNonDecreasing(psds, freqs, gains, m - 1);
      MergeNextAppendsTail(cur, next, scaled);
      var k := MergeStart(cur.freqs, next);
      ConcatNonDecreasing(cur.freqs, next[k..]);
    }
  }

  /** No bin value occurs in two different segment axes. */
  ghost predicate NoSharedBins(freqs: seq<seq<real>>)
  {
    forall i1, j1, i2, j2 :: 0 <= i1 < i2 < |freqs| && 0 <= j1 < |freqs[i1]| && 0 <= j2 < |freqs[i2]| ==>
      freqs[i1][j1] != freqs[i2][j2]
  }

  /** A merge whose accumulated last bin is absent from the next axis keeps the axis strictly increasing. */
  lemma MergeKeepsStrictOrder(cur: Spectrum, next: seq<real>, nextPsd: seq<real>)
    requires |cur.freqs| > 0 && |next| > 0 && |nextPsd| == |next|
    requires StrictlyIncreasing(cur.freqs) && StrictlyIncreasing(next)
    requires forall j :: 0 <= j < |next| ==> next[j] != Last(cur.freqs)
    ensures StrictlyIncreasing(MergeNext(cur, next, nextPsd).freqs)
  {
    MergeNextAppendsTail(cur, next, nextPsd);
    var k := MergeStart(cur.freqs, next);
    var tail := next[k..];
    forall t | 0 <= t < |tail| ensures Last(cur.freqs) < tail[t] {
      assert tail[t] == next[k + t];
    }
    ConcatStrictlyIncreasing(cur.freqs, tail);
  }

  /** Strictly increasing segment axes stitch to a strictly increasing, duplicate-free axis
      when no segment holds the exact last frequency accumulated before it; such a bin
      is the one the left-side search would keep as a repeat. */
  lemma {:induction false} StitchStrictlyIncreasing(psds: seq<seq<real>>, freqs: seq<seq<real>>, gains: seq<real>, m: nat)
    requires WellFormed(psds, freqs, gains) && 1 <= m <= |psds|
    requires forall i :: 0 <= i < |freqs| ==> StrictlyIncreasing(freqs[i])
    requires forall i :: 1 <= i < m ==> AvoidsLastBin(psds, freqs, gains, i)
    ensures StrictlyIncreasing(StitchPrefix(psds, freqs, gains, m).freqs)
    decreases m
  {
    if m > 1 {
      StitchStrictlyIncreasing(psds, freqs, gains, m - 1);
      var cur := StitchPrefix(psds, freqs, gains, m - 1);
      assert AvoidsLastBin(psds, freqs, gains, m - 1);
      MergeKeepsStrictOrder(cur, freqs[m - 1], ScaleAll(psds[m - 1], gains[m - 1]));
    }
  }

  /** Segment i holds no bin equal to the last frequency stitched from segments 0 .. i - 1. */
  ghost predicate AvoidsLastBin(psds: seq<seq<real>>, freqs: seq<seq<real>>, gains: seq<real>, i: nat)
    requires WellFormed(psds, freqs, gains) && 1 <= i < |psds|
  {
    forall t :: 0 <= t < |freqs[i]| ==> freqs[i][t] != Last(StitchPrefix(psds, freqs, gains, i).freqs)
  }

  /** In particular, segments that share no bin value stitch to a strictly increasing axis. */
  lemma StitchStrictlyIncreasingWithoutSharedBins(psds: seq<seq<real>>, freqs: seq<seq<real>>, gains: seq<real>, m: nat)
    requires WellFormed(psds, freqs, gains) && 1 <= m <= |psds|
    requires forall i :: 0 <= i < |freqs| ==> StrictlyIncreasing(freqs[i])
    requires NoSharedBins(freqs)
    ensures StrictlyIncreasing(StitchPrefix(psds, freqs, gains, m).freqs)
  {
    forall i | 1 <= i < m
      ensures AvoidsLastBin(psds, freqs, gains, i)
    {
      LastBinAbsentFromNext(psds, freqs, gains, i);
    }
    StitchStrictlyIncreasing(psds, freqs, gains, m);
  }

  /** Without shared bins, the accumulated last bin (from an earlier segment) is not a bin of segment m - 1. */
  lemma LastBinAbsentFromNext(psds: seq<seq<real>>, freqs: seq<seq<real>>, gains: seq<real>, done: nat)
    requires WellFormed(psds, freqs, gains) && 1 <= done < |psds| && NoSharedBins(freqs)
    ensures forall t :: 0 <= t < |freqs[done]| ==> freqs[done][t] != Last(StitchPrefix(psds, freqs, gains, done).freqs)
  {
    var cur := StitchPrefix(psds, freqs, gains, done);
    var p := |cur.freqs| - 1;
    StitchProvenance(psds, freqs, gains, done, p);
    var i, j :| 0 <= i < done && FromSegment(psds, freqs, gains, i, j, cur.freqs[p], cur.psd[p]);
    assert Last(cur.freqs) == freqs[i][j];
    NotInLaterSegment(freqs, i, j, done);
  }

  lemma NotInLaterSegment(freqs: seq<seq<real>>, i: nat, j: nat, later: nat)
    requires NoSharedBins(freqs) && i < later < |freqs| && j < |freqs[i]|
    ensures forall t :: 0 <= t < |freqs[later]| ==> freqs[later][t] != freqs[i][j]
  {
  }

  /** Two sorted segments meeting at one shared bin: the left-side search keeps that bin twice. */
  lemma SharedBinIsRepeated()
    ensures StitchPrefix([[0.0, 0.0, 0.0], [0.0, 0.0]], [[1.0, 2.0, 3.0], [3.0, 4.0]], [1.0, 1.0], 2).freqs
      == [1.0, 2.0, 3.0, 3.0, 4.0]
  {
    var psds := [[0.0, 0.0, 0.0], [0.0, 0.0]];
    var freqs := [[1.0, 2.0, 3.0], [3.0, 4.0]];
    var gains := [1.0, 1.0];
    assert WellFormed(psds, freqs, gains);
    var cur := StitchPrefix(psds, freqs, gains, 1);
    assert cur.freqs == [1.0, 2.0, 3.0];
    SharedBinMergeStart();
    MergeNextAppendsTail(cur, freqs[1], ScaleAll(psds[1], gains[1]));
    assert freqs[1][0..] == freqs[1];
  }

  /** The merge of [3, 4] after an axis ending at 3 starts at index 0, the shared bin. */
  lemma SharedBinMergeStart()
    ensures MergeStart([1.0, 2.0, 3.0], [3.0, 4.0]) == 0
  {
    assert Last([1.0, 2.0, 3.0]) == 3.0;
    assert BisectLeft([3.0, 4.0], 3.0, 0, 2) == BisectLeft([3.0, 4.0], 3.0, 0, 1);
    assert BisectLeft([3.0, 4.0], 3.0, 0, 1) == BisectLeft([3.0, 4.0], 3.0, 0, 0);
  }

  /** A shared bin below the accumulated last frequency is dropped: segments [1, 2, 3] and
      [2, 4] share 2, yet the stitched axis [1, 2, 3, 4] is strictly increasing. */
  lemma SharedBinBelowLastIsDropped()
    ensures StitchPrefix([[0.0, 0.0, 0.0], [0.0, 0.0]], [[1.0, 2.0, 3.0], [2.0, 4.0]], [1.0, 1.0], 2).freqs
      == [1.0, 2.0, 3.0, 4.0]
  {
    var psds := [[0.0, 0.0, 0.0], [0.0, 0.0]];
    var freqs := [[1.0, 2.0, 3.0], [2.0, 4.0]];
    var gains := [1.0, 1.0];
    assert WellFormed(psds, freqs, gains);
    var cur := StitchPrefix(psds, freqs, gains, 1);
    assert cur.freqs == [1.0, 2.0, 3.0];
    SharedBinBelowLastMergeStart();
    MergeNextAppendsTail(cur, freqs[1], ScaleAll(psds[1], gains[1]));
    assert freqs[1][1..] == [4.0];
  }

  /** The merge of [2, 4] after an axis ending at 3 starts at index 1, past the shared bin. */
  lemma SharedBinBelowLastMergeStart()
    ensures MergeStart([1.0, 2.0, 3.0], [2.0, 4.0]) == 1
  {
    assert Last([1.0, 2.0, 3.0]) == 3.0;
    assert BisectLeft([2.0, 4.0], 3.0, 0, 2) == BisectLeft([2.0, 4.0], 3.0, 0, 1);
    assert BisectLeft([2.0, 4.0], 3.0, 0, 1) == BisectLeft([2.0, 4.0], 3.0, 1, 1);
  }

  // ---------------------------------------------------------------------------
  // apply_final_smoothing

  const DefaultKernelSize: nat := 5

  /** `numpy.convolve(a, ones(m) / m, mode='same')`: bin k is the sum of
      a[k - m//2 .. k + (m-1)//2], bins outside the array counting as zero, over m. */
  function ConvolveSame(a: seq<real>, m: nat): (r: seq<real>)
    requires m >= 1
    ensures |r| == |a|
  {
    seq(|a|, k requires 0 <= k < |a| => Sum(a[Max(0, k - m / 2) .. Min(|a|, k + (m - 1) / 2 + 1)]) / m as real)
  }

  /** Box smoothing, applied only to spectra longer than twice the kernel. */
  function ApplyFinalSmoothing(psd: seq<real>, kernelSize: nat): (r: seq<real>)
    requires kernelSize >= 1
    ensures |r| == |psd|
    ensures |psd| <= 2 * kernelSize ==> r == psd
  {
    if |psd| > kernelSize * 2 then ConvolveSame(psd, kernelSize) else psd
  }

  /** Away from the edges, a smoothed bin is the mean of the m bins around it
      (for odd m = 2h + 1, the bins k - h .. k + h). */
  lemma SmoothingInteriorIsMean(psd: seq<real>, m: nat, k: nat)
    requires m >= 1 && |psd| > 2 * m
    requires m / 2 <= k && k + (m - 1) / 2 < |psd|
    ensures |psd[k - m / 2 .. k - m / 2 + m]| == m
    ensures ApplyFinalSmoothing(psd, m)[k] == Sum(psd[k - m / 2 .. k - m / 2 + m]) / m as real
    ensures m % 2 == 1 ==> psd[k - m / 2 .. k - m / 2 + m] == psd[k - m / 2 .. k + m / 2 + 1]
  {
    HalvesAddUp(m);
    assert Max(0, k - m / 2) == k - m / 2;
    assert Min(|psd|, k + (m - 1) / 2 + 1) == k - m / 2 + m;
  }

  lemma CountTimesValueOverCount(m: nat, c: real)
    requires m >= 1
    ensures m as real * c / m as real == c
  {
  }

  lemma HalvesAddUp(m: nat)
    requires m >= 1
    ensures m / 2 + (m - 1) / 2 + 1 == m
    ensures m % 2 == 1 ==> (m - 1) / 2 == m / 2
  {
  }

  /** A flat stretch stays flat under smoothing wherever the whole window lies inside it. */
  lemma SmoothingKeepsFlatInterior(psd: seq<real>, m: nat, k: nat, c: real)
    requires m >= 1 && |psd| > 2 * m
    requires m / 2 <= k && k + (m - 1) / 2 < |psd|
    requires forall j :: k - m / 2 <= j <= k + (m - 1) / 2 ==> psd[j] == c
    ensures ApplyFinalSmoothing(psd, m)[k] == c
  {
    var w := psd[k - m / 2 .. k - m / 2 + m];
    SmoothingInteriorIsMean(psd, m, k);
    HalvesAddUp(m);
    SumConstant(w, c);
    assert Sum(w) == m as real * c;
    CountTimesValueOverCount(m, c);
  }

  /** At the first bin only (m+1)//2 real bins enter the window but the sum is still
      divided by m: a flat spectrum at level c starts at c * ((m+1)//2) / m. */
  lemma SmoothingAttenuatesFirstBin(psd: seq<real>, m: nat, c: real)
    requires m >= 1 && |psd| > 2 * m
    requires forall j :: 0 <= j < |psd| ==> psd[j] == c
    ensures ApplyFinalSmoothing(psd, m)[0] == ((m + 1) / 2) as real * c / m as real
  {
    var w := psd[0 .. (m - 1) / 2 + 1];
    FirstBinWindow(psd, m);
    SumConstant(w, c);
    HalvesAddUp(m);
    assert |w| == (m + 1) / 2;
  }

  /** The first bin's window is the first (m - 1) // 2 + 1 bins. */
  lemma FirstBinWindow(psd: seq<real>, m: nat)
    requires m >= 1 && |psd| > 2 * m
    ensures ApplyFinalSmoothing(psd, m)[0] == Sum(psd[0 .. (m - 1) / 2 + 1]) / m as real
  {
    assert Max(0, 0 - m / 2) == 0;
    assert Min(|psd|, 0 + (m - 1) / 2 + 1) == (m - 1) / 2 + 1;
  }
}
