/** Peak search around R peaks in the offline and test pipelines
    (`signalProcessing` of test/offline.py, `signalProcessingQRS` of
    test_components/signalprocessing_components/QRSsignalprocessing.py and
    the pass of test/signalprocessing.py).  The peak finder is scipy's
    local-maximum scan with plateau midpoints and an optional minimum
    height. */
module PeakSearch {
  import opened Options

  // ---------------------------------------------------------------------
  // The peak finder
  // ---------------------------------------------------------------------

  predicate StrictlyIncreasing(ps: seq<nat>) {
    forall i, j :: 0 <= i < j < |ps| ==> ps[i] < ps[j]
  }

  /** Sample `p` is interior and no neighbour exceeds it. */
  predicate WeakPeakAt(x: seq<int>, p: nat) {
    1 <= p < |x| - 1 && x[p - 1] <= x[p] && x[p + 1] <= x[p]
  }

  /** Sample `j` is interior and both neighbours are strictly lower. */
  predicate StrictPeakAt(x: seq<int>, j: nat) {
    1 <= j < |x| - 1 && x[j - 1] < x[j] && x[j + 1] < x[j]
  }

  /** The look-ahead of the scan: the first index after `i` whose sample
      differs from `x[i]`, or the last index if there is none. */
  function PlateauEnd(x: seq<int>, i: nat): (j: nat)
    requires 1 <= i < |x| - 1
    ensures i < j <= |x| - 1
    ensures j < |x| - 1 ==> x[j] != x[i]
    decreases |x| - i
  {
    if i + 1 == |x| - 1 || x[i + 1] != x[i] then i + 1 else PlateauEnd(x, i + 1)
  }

  /** Every sample from `i` up to the look-ahead equals `x[i]`. */
  lemma {:induction false} PlateauFlat(x: seq<int>, i: nat, k: nat)
    requires 1 <= i < |x| - 1 && i <= k < PlateauEnd(x, i)
    ensures x[k] == x[i]
    decreases |x| - i
  {
    if k > i {
      PlateauFlat(x, i + 1, k);
    }
  }

  /** The scan from index `i`: a rising edge followed by a plateau and a
      falling edge is a peak, reported at the plateau's midpoint (rounded
      down), and the scan resumes after the falling edge. */
  function ScanPeaks(x: seq<int>, i: nat): (ps: seq<nat>)
    requires 1 <= i
    ensures ps != [] ==> i <= ps[0] && i + |ps| < |x|
    decreases |x| - i
  {
    if i >= |x| - 1 then []
    else if x[i - 1] < x[i] then
      var ahead := PlateauEnd(x, i);
      if x[ahead] < x[i] then [(i + ahead - 1) / 2] + ScanPeaks(x, ahead + 1)
      else ScanPeaks(x, i + 1)
    else ScanPeaks(x, i + 1)
  }

  /** Everything the scan reports is a local maximum at or after `i`, and
      the reports ascend. */
  lemma {:induction false} ScanPeaksSound(x: seq<int>, i: nat)
    requires 1 <= i
    ensures PeaksFrom(x, i, ScanPeaks(x, i))
    decreases |x| - i, 1
  {
    if i < |x| - 1 {
      if x[i - 1] < x[i] && x[PlateauEnd(x, i)] < x[i] {
        ScanSoundAtPeak(x, i);
      } else {
        ScanSoundElsewhere(x, i);
      }
    }
  }

  lemma {:induction false} ScanSoundAtPeak(x: seq<int>, i: nat)
    requires 1 <= i < |x| - 1 && x[i - 1] < x[i] && x[PlateauEnd(x, i)] < x[i]
    ensures PeaksFrom(x, i, ScanPeaks(x, i))
    decreases |x| - i, 0
  {
    var ahead := PlateauEnd(x, i);
    ScanPeaksSound(x, ahead + 1);
    MidpointIsPeak(x, i);
    ScanReports(x, i);
    ConsPeaks(x, ScanPeaks(x, i), (i + ahead - 1) / 2, ScanPeaks(x, ahead + 1), i, ahead + 1);
  }

  lemma {:induction false} ScanSoundElsewhere(x: seq<int>, i: nat)
    requires 1 <= i < |x| - 1 && !(x[i - 1] < x[i] && x[PlateauEnd(x, i)] < x[i])
    ensures PeaksFrom(x, i, ScanPeaks(x, i))
    decreases |x| - i, 0
  {
    ScanPeaksSound(x, i + 1);
    ScanSkips(x, i);
    PeaksFromLower(x, i, i + 1, ScanPeaks(x, i), ScanPeaks(x, i + 1));
  }

  /** `ps` ascends and holds only local maxima at or after `lo`. */
  ghost predicate PeaksFrom(x: seq<int>, lo: nat, ps: seq<nat>)
  {
    (forall k :: 0 <= k < |ps| ==> lo <= ps[k] && WeakPeakAt(x, ps[k])) && StrictlyIncreasing(ps)
  }

  lemma PeaksFromLower(x: seq<int>, lo: nat, lo': nat, ps: seq<nat>, qs: seq<nat>)
    requires lo <= lo' && ps == qs && PeaksFrom(x, lo', qs)
    ensures PeaksFrom(x, lo, ps)
  {
  }

  /** The midpoint of a plateau between a rising and a falling edge is a
      local maximum. */
  lemma MidpointIsPeak(x: seq<int>, i: nat)
    requires 1 <= i < |x| - 1 && x[i - 1] < x[i] && x[PlateauEnd(x, i)] < x[i]
    ensures var mid := (i + PlateauEnd(x, i) - 1) / 2;
      i <= mid < PlateauEnd(x, i) && WeakPeakAt(x, mid)
  {
    var ahead := PlateauEnd(x, i);
    var mid := (i + ahead - 1) / 2;
    PlateauFlat(x, i, mid);
    if mid > i { PlateauFlat(x, i, mid - 1); }
    if mid < ahead - 1 { PlateauFlat(x, i, mid + 1); }
  }

  /** A local maximum before ascending local maxima that start at `lo`
      extends them. */
  lemma ConsPeaks(x: seq<int>, ps: seq<nat>, mid: nat, rest: seq<nat>, i: nat, lo: nat)
    requires i <= mid < lo && WeakPeakAt(x, mid)
    requires PeaksFrom(x, lo, rest) && ps == [mid] + rest
    ensures PeaksFrom(x, i, ps)
  {
    forall a, b | 0 <= a < b < |ps| ensures ps[a] < ps[b] {
      assert ps[b] == rest[b - 1];
      if a > 0 { assert ps[a] == rest[a - 1]; }
    }
  }

  /** Every strict local maximum at or after `i` is reported by the scan. */
  lemma {:induction false} ScanFindsStrictPeaks(x: seq<int>, i: nat, j: nat)
    requires 1 <= i <= j && StrictPeakAt(x, j)
    ensures j in ScanPeaks(x, i)
    decreases |x| - i, 1
  {
    if x[i - 1] < x[i] && x[PlateauEnd(x, i)] < x[i] {
      FindsAtPeak(x, i, j);
    } else {
      ScanSkips(x, i);
      ScanFindsStrictPeaks(x, i + 1, j);
    }
  }

  lemma {:induction false} FindsAtPeak(x: seq<int>, i: nat, j: nat)
    requires 1 <= i <= j && StrictPeakAt(x, j)
    requires x[i - 1] < x[i] && x[PlateauEnd(x, i)] < x[i]
    ensures j in ScanPeaks(x, i)
    decreases |x| - i, 0
  {
    var ahead := PlateauEnd(x, i);
    ScanReports(x, i);
    if j == i {
      assert ahead == i + 1;
    } else {
      StrictPeakBeyondPlateau(x, i, j);
      ScanFindsStrictPeaks(x, ahead + 1, j);
    }
    InCons(j, ScanPeaks(x, i), (i + ahead - 1) / 2, ScanPeaks(x, ahead + 1));
  }

  lemma InCons(j: nat, ps: seq<nat>, mid: nat, rest: seq<nat>)
    requires ps == [mid] + rest && (j == mid || j in rest)
    ensures j in ps
  {
  }

  /** A rising edge, a plateau and a falling edge: the midpoint is
      reported and the scan resumes after the falling edge. */
  lemma ScanReports(x: seq<int>, i: nat)
    requires 1 <= i < |x| - 1 && x[i - 1] < x[i] && x[PlateauEnd(x, i)] < x[i]
    ensures ScanPeaks(x, i) == [(i + PlateauEnd(x, i) - 1) / 2] + ScanPeaks(x, PlateauEnd(x, i) + 1)
  {
  }

  /** Otherwise the scan moves on by one sample. */
  lemma ScanSkips(x: seq<int>, i: nat)
    requires 1 <= i < |x| - 1 && !(x[i - 1] < x[i] && x[PlateauEnd(x, i)] < x[i])
    ensures ScanPeaks(x, i) == ScanPeaks(x, i + 1)
  {
  }

  /** A strict maximum after `i` lies beyond the plateau that starts at
      `i` when that plateau ends in a falling edge. */
  lemma StrictPeakBeyondPlateau(x: seq<int>, i: nat, j: nat)
    requires 1 <= i < |x| - 1 && i < j && StrictPeakAt(x, j) && x[PlateauEnd(x, i)] < x[i]
    ensures j > PlateauEnd(x, i)
  {
    var ahead := PlateauEnd(x, i);
    if j < ahead {
      PlateauFlat(x, i, j);
      PlateauFlat(x, i, j - 1);
    } else if j == ahead {
      PlateauFlat(x, i, j - 1);
    }
  }

  /** Keep the candidates that reach the minimum height, if one is given. */
  function AtLeast(x: seq<int>, ps: seq<nat>, height: Option<int>): (r: seq<nat>)
    requires forall k :: 0 <= k < |ps| ==> ps[k] < |x|
    ensures |r| <= |ps|
    ensures forall k :: 0 <= k < |r| ==> r[k] in ps && (height.Some? ==> x[r[k]] >= height.value)
  {
    if ps == [] then []
    else
      var rest := AtLeast(x, ps[1..], height);
      if height.None? || x[ps[0]] >= height.value then [ps[0]] + rest else rest
  }

  /** The filter drops no candidate that reaches the height. */
  lemma {:induction false} AtLeastComplete(x: seq<int>, ps: seq<nat>, height: Option<int>, p: nat)
    requires forall k :: 0 <= k < |ps| ==> ps[k] < |x|
    requires p in ps && (height.Some? ==> x[p] >= height.value)
    ensures p in AtLeast(x, ps, height)
  {
    if p != ps[0] {
      AtLeastComplete(x, ps[1..], height, p);
    }
  }

  /** The filter keeps the candidates' order. */
  lemma {:induction false} AtLeastIncreasing(x: seq<int>, ps: seq<nat>, height: Option<int>)
    requires forall k :: 0 <= k < |ps| ==> ps[k] < |x|
    requires StrictlyIncreasing(ps)
    ensures StrictlyIncreasing(AtLeast(x, ps, height))
  {
    if ps != [] {
      AtLeastIncreasing(x, ps[1..], height);
      var rest := AtLeast(x, ps[1..], height);
      forall k | 0 <= k < |rest| ensures ps[0] < rest[k] {
        assert rest[k] in ps[1..];
        var j :| 0 <= j < |ps[1..]| && ps[1..][j] == rest[k];
        assert ps[j + 1] == rest[k];
      }
    }
  }

  /** scipy's `find_peaks(x)` (no height) or `find_peaks(x, height=h)`:
      the indices of the local maxima, ascending. */
  function FindPeaks(x: seq<int>, height: Option<int>): (ps: seq<nat>)
    ensures |ps| <= |x|
    ensures StrictlyIncreasing(ps)
    ensures forall k :: 0 <= k < |ps| ==>
      WeakPeakAt(x, ps[k]) && (height.Some? ==> x[ps[k]] >= height.value)
  {
    var cands := ScanPeaks(x, 1);
    ScanPeaksSound(x, 1);
    AtLeastIncreasing(x, cands, height);
    AtLeast(x, cands, height)
  }

  /** The reported peaks lie between the strict local maxima of enough
      height and the weak ones: every strict maximum that reaches the
      height is reported, and nothing reported has a higher neighbour. */
  lemma FindPeaksComplete(x: seq<int>, height: Option<int>, j: nat)
    requires StrictPeakAt(x, j) && (height.Some? ==> x[j] >= height.value)
    ensures j in FindPeaks(x, height)
  {
    ScanFindsStrictPeaks(x, 1, j);
    ScanPeaksSound(x, 1);
    AtLeastComplete(x, ScanPeaks(x, 1), height, j);
  }

  /** Fewer than three samples have no interior point, hence no peak. */
  lemma ShortHasNoPeaks(x: seq<int>, height: Option<int>)
    requires |x| < 3
    ensures FindPeaks(x, height) == []
  {
  }

  // ---------------------------------------------------------------------
  // Search windows around an R peak
  // ---------------------------------------------------------------------

  /** Which side of an R peak a window searches: S waves after it, Q waves
      before it. */
  datatype Side = After | Before

  /** Minimum height `find_peaks` demands of an R peak. */
  const RHeight: int := 1500

  function Min(a: int, b: int): int { if a <= b then a else b }

  function Max(a: int, b: int): int { if a >= b then a else b }

  /** The half-open window `[lo, hi)` searched on one side of the R peak at
      `r` in a row of `n` samples with search width `w`: `[r+1,
      min(r+1+w, n))` after it, `[max(0, r-w), r)` before it, or None when
      the guard (`start_index < len`, `end_index > 0`) skips the search. */
  function Window(side: Side, r: nat, n: nat, w: nat): (o: Option<(nat, nat)>)
    requires r < n
    ensures o.Some? ==> o.value.0 <= o.value.1 <= n && o.value.1 - o.value.0 <= w
    ensures o.Some? && side == After ==> r < o.value.0
    ensures o.Some? && side == Before ==> o.value.1 == r
  {
    match side
    case After => if r + 1 < n then Some((r + 1, Min(r + 1 + w, n))) else None
    case Before => if r > 0 then Some((Max(0, r - w), r)) else None
  }

  /** The S window exists exactly when a sample follows the R peak, and
      then it is non-empty when the width is; the Q window exists exactly
      when a sample precedes it. */
  lemma WindowGuards(r: nat, n: nat, w: nat)
    requires r < n
    ensures Window(After, r, n, w).Some? <==> r + 1 < n
    ensures Window(After, r, n, w).Some? && w > 0 ==> Window(After, r, n, w).value.0 < Window(After, r, n, w).value.1
    ensures Window(Before, r, n, w).Some? <==> r > 0
    ensures Window(Before, r, n, w).Some? && w > 0 ==> Window(Before, r, n, w).value.0 < Window(Before, r, n, w).value.1
  {
  }

  /** The window's samples negated and offset by the window start, as
      passed to `find_peaks`, so that minima become maxima. */
  function Negated(x: seq<int>, lo: nat, hi: nat): (y: seq<int>)
    requires lo <= hi <= |x|
    ensures |y| == hi - lo
  {
    seq(hi - lo, j requires 0 <= j < hi - lo => -x[lo + j] + lo)
  }

  /** One S or Q peak: the amplitude appended and the index appended. */
  datatype Hit = Hit(amp: int, idx: nat)

  /** The peaks found in one window: the index is the window position
      shifted by the window start, while the amplitude is read at the
      unshifted window position. */
  function Hits(x: seq<int>, side: Side, r: nat, w: nat, height: Option<int>): (hs: seq<Hit>)
    requires r < |x|
    ensures |hs| <= w
    ensures Window(side, r, |x|, w).None? ==> hs == []
  {
    match Window(side, r, |x|, w)
    case None => []
    case Some((lo, hi)) =>
      var y := Negated(x, lo, hi);
      var ps := FindPeaks(y, height);
      seq(|ps|, k requires 0 <= k < |ps| => Hit(x[ps[k]], ps[k] + lo))
  }

  /** `hit` lies strictly inside the window searched around `r`, and its
      amplitude is the sample at its window-relative position. */
  predicate HitIn(x: seq<int>, side: Side, r: nat, w: nat, hit: Hit)
    requires r < |x|
  {
    var o := Window(side, r, |x|, w);
    o.Some? && o.value.0 < hit.idx < o.value.1 - 1 && hit.amp == x[hit.idx - o.value.0]
  }

  /** Every hit lies strictly inside the window searched around `r`, and
      its amplitude is read at its window-relative position. */
  lemma HitsInWindow(x: seq<int>, side: Side, r: nat, w: nat, height: Option<int>)
    requires r < |x|
    ensures forall k :: 0 <= k < |Hits(x, side, r, w, height)| ==> HitIn(x, side, r, w, Hits(x, side, r, w, height)[k])
  {
    forall k | 0 <= k < |Hits(x, side, r, w, height)| ensures HitIn(x, side, r, w, Hits(x, side, r, w, height)[k]) {
      HitAt(x, side, r, w, height, k);
    }
  }

  lemma HitAt(x: seq<int>, side: Side, r: nat, w: nat, height: Option<int>, k: nat)
    requires r < |x| && k < |Hits(x, side, r, w, height)|
    ensures HitIn(x, side, r, w, Hits(x, side, r, w, height)[k])
  {
    var o := Window(side, r, |x|, w);
    assert o.Some?;
    var lo, hi := o.value.0, o.value.1;
    var y := Negated(x, lo, hi);
    var ps := FindPeaks(y, height);
    assert 1 <= ps[k] < hi - lo - 1 by {
      assert WeakPeakAt(y, ps[k]);
    }
    assert Hits(x, side, r, w, height)[k] == Hit(x[ps[k]], ps[k] + lo);
    PeakInWindow(x, side, r, w, lo, hi, ps[k]);
  }

  /** The hits of a window are its peaks, in order: the index shifted by
      the window start and the amplitude read at the unshifted position. */
  lemma HitsOfPeaks(x: seq<int>, side: Side, r: nat, w: nat, height: Option<int>, lo: nat, hi: nat, ps: seq<nat>)
    requires r < |x| && Window(side, r, |x|, w) == Some((lo, hi))
    requires FindPeaks(Negated(x, lo, hi), height) == ps
    ensures |Hits(x, side, r, w, height)| == |ps|
    ensures forall k :: 0 <= k < |ps| ==> ps[k] < |x| && Hits(x, side, r, w, height)[k] == Hit(x[ps[k]], ps[k] + lo)
  {
  }

  /** A peak at position `p` of the window `[lo, hi)` yields a hit inside
      the window. */
  lemma PeakInWindow(x: seq<int>, side: Side, r: nat, w: nat, lo: nat, hi: nat, p: nat)
    requires r < |x| && Window(side, r, |x|, w) == Some((lo, hi)) && 1 <= p < hi - lo - 1
    ensures HitIn(x, side, r, w, Hit(x[p], p + lo))
  {
  }

  /** Shifted S indices stay after the R peak, below the row length and
      within the width; shifted Q indices stay before the R peak and
      within the width. */
  lemma HitBounds(x: seq<int>, side: Side, r: nat, w: nat, hit: Hit)
    requires r < |x| && HitIn(x, side, r, w, hit)
    ensures side == After ==> r + 1 < hit.idx < |x| - 1 && hit.idx < r + w
    ensures side == Before ==> r - w < hit.idx < r - 1
    ensures side == After ==> hit.amp == x[hit.idx - (r + 1)]
    ensures side == Before ==> hit.amp == x[hit.idx - Max(0, r - w)]
  {
  }

  /** The hits of every R peak of a row, R peak after R peak. */
  function RowHits(x: seq<int>, side: Side, rs: seq<nat>, w: nat, height: Option<int>): seq<Hit>
    requires forall k :: 0 <= k < |rs| ==> rs[k] < |x|
  {
    if rs == [] then []
    else RowHits(x, side, rs[..|rs| - 1], w, height) + Hits(x, side, rs[|rs| - 1], w, height)
  }

  /** Every hit of a row belongs to the window of one of its R peaks. */
  lemma {:induction false} RowHitsFromWindows(x: seq<int>, side: Side, rs: seq<nat>, w: nat, height: Option<int>, k: nat)
    requires forall i :: 0 <= i < |rs| ==> rs[i] < |x|
    requires k < |RowHits(x, side, rs, w, height)|
    ensures exists i :: 0 <= i < |rs| && HitIn(x, side, rs[i], w, RowHits(x, side, rs, w, height)[k])
  {
    var init := rs[..|rs| - 1];
    var front := RowHits(x, side, init, w, height);
    if k < |front| {
      RowHitsFromWindows(x, side, init, w, height, k);
      var i :| 0 <= i < |init| && HitIn(x, side, init[i], w, front[k]);
      assert rs[i] == init[i];
    } else {
      HitsInWindow(x, side, rs[|rs| - 1], w, height);
      assert HitIn(x, side, rs[|rs| - 1], w, RowHits(x, side, rs, w, height)[k]);
    }
  }

  /** A row where the reported S amplitude is not the sample at the
      reported S index: the S minimum sits at index 3, but the amplitude
      read is the R peak's own sample. */
  lemma UnshiftedAmplitude()
    ensures var x := [0, 5000, 10, 3, 10, 20, 30];
      Hits(x, After, 1, 50, None) == [Hit(5000, 3)] && x[3] == 3
  {
    var x := [0, 5000, 10, 3, 10, 20, 30];
    assert Window(After, 1, 7, 50) == Some((2, 7));
    NegatedWindow();
    NegatedWindowPeaks();
    HitsOfPeaks(x, After, 1, 50, None, 2, 7, [1]);
    assert Hits(x, After, 1, 50, None)[0] == Hit(5000, 3);
  }

  lemma NegatedWindow()
    ensures Negated([0, 5000, 10, 3, 10, 20, 30], 2, 7) == [-8, -1, -8, -18, -28]
  {
  }

  /** The negated S window of the row above has its one peak at 1. */
  lemma NegatedWindowPeaks()
    ensures FindPeaks([-8, -1, -8, -18, -28], None) == [1]
  {
    var y := [-8, -1, -8, -18, -28];
    assert ScanPeaks(y, 3) == [];
    assert PlateauEnd(y, 1) == 2;
    assert ScanPeaks(y, 1) == [1];
    assert AtLeast(y, [1][1..], None) == [];
  }

  // ---------------------------------------------------------------------
  // Times, pairing by position and successive differences
  // ---------------------------------------------------------------------

  /** Seconds since the first row, `(t - t0) / 1e9`; None for an empty
      table, where reading the first timestamp raises. */
  function RelativeTimes(ts: seq<int>): (o: Option<seq<real>>)
    ensures o.Some? <==> ts != []
    ensures o.Some? ==> |o.value| == |ts| && o.value[0] == 0.0
  {
    if ts == [] then None
    else Some(seq(|ts|, i requires 0 <= i < |ts| => (ts[i] - ts[0]) as real / 1000000000.0))
  }

  /** Differences of relative times do not depend on the first timestamp. */
  lemma RelativeTimeDifference(ts: seq<int>, i: nat, j: nat)
    requires i < |ts| && j < |ts|
    ensures RelativeTimes(ts).Some?
    ensures RelativeTimes(ts).value[j] - RelativeTimes(ts).value[i] == (ts[j] - ts[i]) as real / 1000000000.0
  {
  }

  function Abs(v: real): real { if v < 0.0 then -v else v }

  /** Every index that `zip` pairs is a row of the time table. */
  predicate PairsInRange(t: seq<real>, qs: seq<nat>, ss: seq<nat>) {
    forall i :: 0 <= i < |qs| && i < |ss| ==> qs[i] < |t| && ss[i] < |t|
  }

  /** `calculate_qrs_durations` on the first `n` position-paired Q and S
      indices: `|t[s] - t[q]| / 100` per pair, or None when an index is not
      a row of the time table (the lookup raises). */
  function ZipUpTo(t: seq<real>, qs: seq<nat>, ss: seq<nat>, n: nat): (o: Option<seq<real>>)
    requires n <= |qs| && n <= |ss|
    ensures o.Some? <==> forall i :: 0 <= i < n ==> qs[i] < |t| && ss[i] < |t|
    ensures o.Some? ==> |o.value| == n
    ensures o.Some? ==> forall i :: 0 <= i < n ==>
      o.value[i] == Abs(t[ss[i]] - t[qs[i]]) / 100.0 && o.value[i] >= 0.0
  {
    if n == 0 then Some([])
    else match ZipUpTo(t, qs, ss, n - 1)
      case None => None
      case Some(d) =>
        if qs[n - 1] < |t| && ss[n - 1] < |t| then Some(d + [Abs(t[ss[n - 1]] - t[qs[n - 1]]) / 100.0])
        else None
  }

  /** `zip` stops at the shorter list. */
  function ZipDurations(t: seq<real>, qs: seq<nat>, ss: seq<nat>): (o: Option<seq<real>>)
    ensures o.Some? <==> PairsInRange(t, qs, ss)
    ensures o.Some? ==> |o.value| == Min(|qs|, |ss|)
  {
    ZipUpTo(t, qs, ss, Min(|qs|, |ss|))
  }

  /** `np.diff`: the successive differences. */
  function Diffs(a: seq<int>): (d: seq<int>)
    ensures |d| == Max(|a| - 1, 0)
    ensures forall i :: 0 <= i < |d| ==> d[i] == a[i + 1] - a[i]
  {
    if |a| < 2 then [] else Diffs(a[..|a| - 1]) + [a[|a| - 1] - a[|a| - 2]]
  }

  function Sum(d: seq<int>): int {
    if d == [] then 0 else Sum(d[..|d| - 1]) + d[|d| - 1]
  }

  /** The differences telescope: they add up to last minus first. */
  lemma {:induction false} DiffsTelescope(a: seq<int>)
    requires a != []
    ensures Sum(Diffs(a)) == a[|a| - 1] - a[0]
  {
    if |a| >= 2 {
      var init := a[..|a| - 1];
      DiffsTelescope(init);
      assert Diffs(a) == Diffs(init) + [a[|a| - 1] - a[|a| - 2]];
      assert Diffs(a)[..|Diffs(a)| - 1] == Diffs(init);
    }
  }

  /** Extending the list keeps all its earlier differences as a prefix. */
  lemma DiffsSnoc(a: seq<int>, i: nat)
    requires 0 < i < |a|
    ensures Diffs(a[..i + 1]) == Diffs(a[..i]) + [a[i] - a[i - 1]]
  {
    assert a[..i + 1][..i] == a[..i];
  }

  lemma DiffsPrefix(a: seq<int>, b: seq<int>)
    ensures Diffs(a) <= Diffs(a + b)
  {
    var d, e := Diffs(a), Diffs(a + b);
    forall i | 0 <= i < |d| ensures d[i] == e[i] {
      assert (a + b)[i] == a[i] && (a + b)[i + 1] == a[i + 1];
    }
  }

  // ---------------------------------------------------------------------
  // The extraction state
  // ---------------------------------------------------------------------

  /** The settings that differ between the three scripts. */
  datatype Config = Config(window: nat, qsHeight: Option<int>, tracksIndices: bool)

  /** test/offline.py and QRSsignalprocessing.py: width 50, no height for
      S/Q, indices recorded. */
  const OfflineConfig: Config := Config(50, None, true)

  /** test/signalprocessing.py: width 100, S/Q height 0, no indices. */
  const StreamingConfig: Config := Config(100, Some(0), false)

  /** The lists the scripts fill. */
  datatype Extracted = Extracted(
    rAmps: seq<int>, rIdx: seq<nat>,
    sAmps: seq<int>, sIdx: seq<nat>,
    qAmps: seq<int>, qIdx: seq<nat>,
    durations: seq<real>, rrAll: seq<int>)

  const Empty: Extracted := Extracted([], [], [], [], [], [], [], [])

  /** One table row: its timestamp and its parsed ECG samples. */
  datatype EcgRow = EcgRow(time: int, ecg: seq<int>)

  function TimesOf(rows: seq<EcgRow>): (ts: seq<int>)
    ensures |ts| == |rows|
  {
    seq(|rows|, i requires 0 <= i < |rows| => rows[i].time)
  }

  function EcgsOf(rows: seq<EcgRow>): (xs: seq<seq<int>>)
    ensures |xs| == |rows|
  {
    seq(|rows|, i requires 0 <= i < |rows| => rows[i].ecg)
  }

  function RPeaks(x: seq<int>): (ps: seq<nat>)
    ensures forall k :: 0 <= k < |ps| ==> ps[k] < |x|
  {
    FindPeaks(x, Some(RHeight))
  }

  function AmpsAt(x: seq<int>, ps: seq<nat>): (a: seq<int>)
    requires forall k :: 0 <= k < |ps| ==> ps[k] < |x|
    ensures |a| == |ps|
  {
    seq(|ps|, k requires 0 <= k < |ps| => x[ps[k]])
  }

  function Amps(hs: seq<Hit>): seq<int> {
    seq(|hs|, k requires 0 <= k < |hs| => hs[k].amp)
  }

  function Idxs(hs: seq<Hit>): seq<nat> {
    seq(|hs|, k requires 0 <= k < |hs| => hs[k].idx)
  }

  /** `s` written out `k` times. */
  function Repeat<T>(s: seq<T>, k: nat): seq<T> {
    if k == 0 then [] else Repeat(s, k - 1) + s
  }

  lemma {:induction false} RepeatLength<T>(s: seq<T>, k: nat)
    ensures |Repeat(s, k)| == k * |s|
  {
    if k > 0 {
      RepeatLength(s, k - 1);
    }
  }

  /** R extraction of one row: the whole peak array (amplitudes, and
      indices when recorded) is appended once per peak. */
  function WithR(e: Extracted, cfg: Config, x: seq<int>): Extracted {
    var ps := RPeaks(x);
    e.(rAmps := e.rAmps + Repeat(AmpsAt(x, ps), |ps|),
       rIdx := if cfg.tracksIndices then e.rIdx + Repeat(ps, |ps|) else e.rIdx)
  }

  /** A row with `k` R peaks adds `k * k` entries. */
  lemma RGrowth(e: Extracted, cfg: Config, x: seq<int>)
    ensures |WithR(e, cfg, x).rAmps| == |e.rAmps| + |RPeaks(x)| * |RPeaks(x)|
    ensures cfg.tracksIndices ==> |WithR(e, cfg, x).rIdx| == |e.rIdx| + |RPeaks(x)| * |RPeaks(x)|
  {
    var ps := RPeaks(x);
    RepeatLength(AmpsAt(x, ps), |ps|);
    RepeatLength(ps, |ps|);
  }

  /** Append hits to the S or the Q lists. */
  function WithHits(e: Extracted, cfg: Config, side: Side, hs: seq<Hit>): Extracted {
    if side == After then
      e.(sAmps := e.sAmps + Amps(hs), sIdx := if cfg.tracksIndices then e.sIdx + Idxs(hs) else e.sIdx)
    else
      e.(qAmps := e.qAmps + Amps(hs), qIdx := if cfg.tracksIndices then e.qIdx + Idxs(hs) else e.qIdx)
  }

  /** S or Q extraction of one row, around each of the given R peaks. */
  function WithSide(e: Extracted, cfg: Config, x: seq<int>, side: Side, rs: seq<nat>): Extracted
    requires forall k :: 0 <= k < |rs| ==> rs[k] < |x|
  {
    WithHits(e, cfg, side, RowHits(x, side, rs, cfg.window, cfg.qsHeight))
  }

  lemma WithHitsAppend(e: Extracted, cfg: Config, side: Side, a: seq<Hit>, b: seq<Hit>)
    ensures WithHits(WithHits(e, cfg, side, a), cfg, side, b) == WithHits(e, cfg, side, a + b)
  {
    assert Amps(a + b) == Amps(a) + Amps(b);
    assert Idxs(a + b) == Idxs(a) + Idxs(b);
  }

  /** The accumulated R amplitudes' differences appended to `rrAll`. */
  function WithRr(e: Extracted): Extracted {
    e.(rrAll := e.rrAll + Diffs(e.rAmps))
  }

  /** `calculate_qrs_durations` over the lists accumulated so far. */
  function WithDurations(e: Extracted, t: seq<real>): (o: Option<Extracted>)
    ensures o.Some? <==> PairsInRange(t, e.qIdx, e.sIdx)
  {
    match ZipDurations(t, e.qIdx, e.sIdx)
    case None => None
    case Some(d) => Some(e.(durations := e.durations + d))
  }

  /** R, then S, then Q extraction of one row. */
  function ExtractRow(e: Extracted, cfg: Config, x: seq<int>): Extracted {
    var ps := RPeaks(x);
    WithSide(WithSide(WithR(e, cfg, x), cfg, x, After, ps), cfg, x, Before, ps)
  }

  /** A row of test/signalprocessing.py: R extraction, the RR differences,
      then S and Q extraction. */
  function StreamingRow(e: Extracted, cfg: Config, x: seq<int>): Extracted {
    var ps := RPeaks(x);
    WithSide(WithSide(WithRr(WithR(e, cfg, x)), cfg, x, After, ps), cfg, x, Before, ps)
  }

  /** The lists after extracting every row, from empty lists. */
  function Extract(cfg: Config, xs: seq<seq<int>>): (e: Extracted)
    ensures e.durations == [] && e.rrAll == []
    ensures !cfg.tracksIndices ==> e.rIdx == [] && e.sIdx == [] && e.qIdx == []
  {
    if xs == [] then Empty else ExtractRow(Extract(cfg, xs[..|xs| - 1]), cfg, xs[|xs| - 1])
  }

  /** The lists after one pass of test/signalprocessing.py. */
  function StreamingRows(cfg: Config, xs: seq<seq<int>>): (e: Extracted)
    ensures e.durations == []
    ensures !cfg.tracksIndices ==> e.rIdx == [] && e.sIdx == [] && e.qIdx == []
  {
    if xs == [] then Empty else StreamingRow(StreamingRows(cfg, xs[..|xs| - 1]), cfg, xs[|xs| - 1])
  }

  /** test/offline.py's durations: after each row, the pairs of all Q and S
      indices so far are appended again. */
  function OfflineDurations(xs: seq<seq<int>>, t: seq<real>): seq<real> {
    if xs == [] then []
    else
      var e := Extract(OfflineConfig, xs);
      match ZipDurations(t, e.qIdx, e.sIdx)
      case None => []
      case Some(d) => OfflineDurations(xs[..|xs| - 1], t) + d
  }

  /** test/offline.py's per-row pairing never raises. */
  predicate OfflineOk(xs: seq<seq<int>>, t: seq<real>)
    decreases |xs|
  {
    xs == [] ||
    (OfflineOk(xs[..|xs| - 1], t) && PairsInRange(t, Extract(OfflineConfig, xs).qIdx, Extract(OfflineConfig, xs).sIdx))
  }

  /** What `signalProcessing` in test/offline.py computes, or None when it
      raises. */
  function OfflineResult(rows: seq<EcgRow>): (o: Option<Extracted>)
    ensures rows == [] ==> o.None?
    ensures o.Some? ==> o.value.(durations := []) == Extract(OfflineConfig, EcgsOf(rows))
  {
    match RelativeTimes(TimesOf(rows))
    case None => None
    case Some(t) =>
      var xs := EcgsOf(rows);
      if OfflineOk(xs, t) then Some(Extract(OfflineConfig, xs).(durations := OfflineDurations(xs, t)))
      else None
  }

  /** What `signalProcessingQRS` computes, or None when it raises. */
  function ComponentResult(rows: seq<EcgRow>): (o: Option<Extracted>)
    ensures o.Some? <==> (rows != [] &&
      PairsInRange(RelativeTimes(TimesOf(rows)).value, Extract(OfflineConfig, EcgsOf(rows)).qIdx, Extract(OfflineConfig, EcgsOf(rows)).sIdx))
    ensures o.Some? ==> o.value.(durations := []) == Extract(OfflineConfig, EcgsOf(rows))
  {
    match RelativeTimes(TimesOf(rows))
    case None => None
    case Some(t) => WithDurations(Extract(OfflineConfig, EcgsOf(rows)), t)
  }

  /** Row extraction leaves the durations alone. */
  lemma ExtractRowKeepsDurations(e: Extracted, cfg: Config, x: seq<int>, d: seq<real>)
    ensures ExtractRow(e.(durations := d), cfg, x) == ExtractRow(e, cfg, x).(durations := d)
  {
  }

  /** Extraction only appends: the S and Q index lists after fewer rows
      are prefixes of those after more rows. */
  lemma {:induction false} ExtractPrefix(cfg: Config, xs: seq<seq<int>>, j: nat)
    requires j <= |xs|
    ensures Extract(cfg, xs[..j]).qIdx <= Extract(cfg, xs).qIdx
    ensures Extract(cfg, xs[..j]).sIdx <= Extract(cfg, xs).sIdx
    decreases |xs|
  {
    if j < |xs| {
      var init := xs[..|xs| - 1];
      assert xs[..j] == init[..j];
      ExtractPrefix(cfg, init, j);
      ExtractUnfold(cfg, xs, init, xs[|xs| - 1]);
      ExtractRowExtends(Extract(cfg, init), cfg, xs[|xs| - 1]);
      ExtendsTrans(Extract(cfg, xs[..j]), Extract(cfg, init), Extract(cfg, xs));
    } else {
      assert xs[..j] == xs;
    }
  }

  lemma ExtractStepExtends(cfg: Config, xs: seq<seq<int>>, k: nat)
    requires k < |xs|
    ensures Extract(cfg, xs[..k]).qIdx <= Extract(cfg, xs[..k + 1]).qIdx
    ensures Extract(cfg, xs[..k]).sIdx <= Extract(cfg, xs[..k + 1]).sIdx
  {
    ExtractSnoc(cfg, xs, k);
    ExtractRowExtends(Extract(cfg, xs[..k]), cfg, xs[k]);
  }

  lemma ExtendsTrans(a: Extracted, b: Extracted, c: Extracted)
    requires a.qIdx <= b.qIdx && b.qIdx <= c.qIdx
    requires a.sIdx <= b.sIdx && b.sIdx <= c.sIdx
    ensures a.qIdx <= c.qIdx && a.sIdx <= c.sIdx
  {
    PrefixTrans(a.qIdx, b.qIdx, c.qIdx);
    PrefixTrans(a.sIdx, b.sIdx, c.sIdx);
  }

  lemma PrefixTrans<T>(a: seq<T>, b: seq<T>, c: seq<T>)
    requires a <= b && b <= c
    ensures a <= c
  {
    assert a == b[..|a|] && b == c[..|b|];
  }

  lemma ExtractRowExtends(e: Extracted, cfg: Config, x: seq<int>)
    ensures e.qIdx <= ExtractRow(e, cfg, x).qIdx && e.sIdx <= ExtractRow(e, cfg, x).sIdx
  {
    var ps := RPeaks(x);
    var e1 := WithR(e, cfg, x);
    var e2 := WithSide(e1, cfg, x, After, ps);
    var e3 := WithSide(e2, cfg, x, Before, ps);
    assert e1.qIdx == e.qIdx && e1.sIdx == e.sIdx;
    assert e2.qIdx == e1.qIdx && e1.sIdx <= e2.sIdx;
    assert e3.sIdx == e2.sIdx && e2.qIdx <= e3.qIdx;
  }

  /** Pairing shorter prefixes of the index lists touches only pairs the
      longer lists also pair. */
  lemma PairsInRangePrefix(t: seq<real>, qs: seq<nat>, ss: seq<nat>, qs': seq<nat>, ss': seq<nat>)
    requires qs' <= qs && ss' <= ss
    ensures PairsInRange(t, qs, ss) ==> PairsInRange(t, qs', ss')
  {
    if PairsInRange(t, qs, ss) {
      forall i | 0 <= i < |qs'| && i < |ss'| ensures qs'[i] < |t| && ss'[i] < |t| {
        assert qs'[i] == qs[i] && ss'[i] == ss[i];
      }
    }
  }

  /** The per-row pairings all succeed exactly when the last one does,
      since every earlier one pairs a prefix of the final lists. */
  lemma {:induction false} OfflineOkIffLast(xs: seq<seq<int>>, t: seq<real>)
    ensures OfflineOk(xs, t) <==> PairsInRange(t, Extract(OfflineConfig, xs).qIdx, Extract(OfflineConfig, xs).sIdx)
    decreases |xs|
  {
    if xs != [] {
      OfflineOkIffLast(xs[..|xs| - 1], t);
      LastPairsCoverInit(xs, t);
    }
  }

  /** The pairs of all rows in range imply the pairs of all rows but the
      last in range. */
  lemma LastPairsCoverInit(xs: seq<seq<int>>, t: seq<real>)
    requires xs != []
    ensures var a, b := Extract(OfflineConfig, xs[..|xs| - 1]), Extract(OfflineConfig, xs);
      PairsInRange(t, b.qIdx, b.sIdx) ==> PairsInRange(t, a.qIdx, a.sIdx)
  {
    ExtractStepExtends(OfflineConfig, xs, |xs| - 1);
    assert xs[..|xs|] == xs;
    var a, b := Extract(OfflineConfig, xs[..|xs| - 1]), Extract(OfflineConfig, xs);
    PairsInRangePrefix(t, b.qIdx, b.sIdx, a.qIdx, a.sIdx);
  }

  /** A failed pairing after row `k` makes the whole call fail. */
  lemma OfflineFailsAt(xs: seq<seq<int>>, t: seq<real>, k: nat)
    requires k <= |xs|
    requires !PairsInRange(t, Extract(OfflineConfig, xs[..k]).qIdx, Extract(OfflineConfig, xs[..k]).sIdx)
    ensures !OfflineOk(xs, t)
  {
    OfflineOkIffLast(xs, t);
    ExtractPrefix(OfflineConfig, xs, k);
    var a, b := Extract(OfflineConfig, xs[..k]), Extract(OfflineConfig, xs);
    PairsInRangePrefix(t, b.qIdx, b.sIdx, a.qIdx, a.sIdx);
  }

  /** test/offline.py raises exactly when QRSsignalprocessing.py does: the
      per-row pairings only revisit pairs of the final one. */
  lemma OfflineFailsIffComponentFails(rows: seq<EcgRow>)
    ensures OfflineResult(rows).Some? <==> ComponentResult(rows).Some?
  {
    if rows != [] {
      OfflineOkIffLast(EcgsOf(rows), RelativeTimes(TimesOf(rows)).value);
    }
  }

  /** Both scripts extract the same peaks; the durations computed once at
      the end of QRSsignalprocessing.py are exactly the last ones test/offline.py
      appends, after the repeated pairs of the earlier rows. */
  lemma OfflineEndsWithComponent(rows: seq<EcgRow>)
    requires ComponentResult(rows).Some?
    ensures OfflineResult(rows).Some?
    ensures OfflineResult(rows).value.(durations := []) == ComponentResult(rows).value.(durations := [])
    ensures var o, c := OfflineResult(rows).value.durations, ComponentResult(rows).value.durations;
      |c| <= |o| && o[|o| - |c|..] == c
  {
    OfflineFailsIffComponentFails(rows);
    var t := RelativeTimes(TimesOf(rows)).value;
    var xs := EcgsOf(rows);
    ExtractKeepsNoDurations(OfflineConfig, xs);
    if xs != [] {
      var e := Extract(OfflineConfig, xs);
      assert OfflineDurations(xs, t) == OfflineDurations(xs[..|xs| - 1], t) + ZipDurations(t, e.qIdx, e.sIdx).value;
    }
  }

  /** Extraction from empty lists computes no durations. */
  lemma {:induction false} ExtractKeepsNoDurations(cfg: Config, xs: seq<seq<int>>)
    ensures Extract(cfg, xs).durations == []
  {
    if xs != [] {
      ExtractKeepsNoDurations(cfg, xs[..|xs| - 1]);
    }
  }

  /** QRSsignalprocessing.py pairs by position: as many durations as the
      shorter of the Q and S index lists, each non-negative. */
  lemma ComponentDurations(rows: seq<EcgRow>)
    requires ComponentResult(rows).Some?
    ensures var r := ComponentResult(rows).value;
      |r.durations| == Min(|r.qIdx|, |r.sIdx|) && forall i :: 0 <= i < |r.durations| ==> r.durations[i] >= 0.0
  {
    ExtractKeepsNoDurations(OfflineConfig, EcgsOf(rows));
  }

  /** In test/signalprocessing.py each row appends the differences of all
      R amplitudes so far, so those already appended for earlier rows are
      appended again at the front of the new ones. */
  lemma StreamingRepeatsDiffs(cfg: Config, xs: seq<seq<int>>, x: seq<int>)
    ensures var before := StreamingRows(cfg, xs);
      var rs := WithR(before, cfg, x).rAmps;
      StreamingRows(cfg, xs + [x]).rrAll == before.rrAll + Diffs(rs) && Diffs(before.rAmps) <= Diffs(rs)
  {
    var before := StreamingRows(cfg, xs);
    assert (xs + [x])[..|xs|] == xs;
    StreamingRowRr(before, cfg, x);
    var ps := RPeaks(x);
    DiffsPrefix(before.rAmps, Repeat(AmpsAt(x, ps), |ps|));
  }

  /** S and Q extraction leave `rrAll` alone. */
  lemma StreamingRowRr(e: Extracted, cfg: Config, x: seq<int>)
    ensures StreamingRow(e, cfg, x).rrAll == e.rrAll + Diffs(WithR(e, cfg, x).rAmps)
  {
    var ps := RPeaks(x);
    var e1 := WithRr(WithR(e, cfg, x));
    var e2 := WithSide(e1, cfg, x, After, ps);
    assert e2.rrAll == e1.rrAll;
    assert WithSide(e2, cfg, x, Before, ps).rrAll == e2.rrAll;
  }

  /** Extracting one more row. */
  lemma ExtractSnoc(cfg: Config, xs: seq<seq<int>>, k: nat)
    requires k < |xs|
    ensures Extract(cfg, xs[..k + 1]) == ExtractRow(Extract(cfg, xs[..k]), cfg, xs[k])
  {
    ExtractUnfold(cfg, xs[..k + 1], xs[..k], xs[k]);
  }

  /** One unfolding of `Extract`, on a sequence given by its parts. */
  lemma ExtractUnfold(cfg: Config, p: seq<seq<int>>, init: seq<seq<int>>, last: seq<int>)
    requires p != [] && init == p[..|p| - 1] && last == p[|p| - 1]
    ensures Extract(cfg, p) == ExtractRow(Extract(cfg, init), cfg, last)
  {
  }

  /** Streaming one more row. */
  lemma StreamingSnoc(cfg: Config, xs: seq<seq<int>>, k: nat)
    requires k < |xs|
    ensures StreamingRows(cfg, xs[..k + 1]) == StreamingRow(StreamingRows(cfg, xs[..k]), cfg, xs[k])
  {
    StreamingUnfold(cfg, xs[..k + 1], xs[..k], xs[k]);
  }

  /** One unfolding of `StreamingRows`, on a sequence given by its parts. */
  lemma StreamingUnfold(cfg: Config, p: seq<seq<int>>, init: seq<seq<int>>, last: seq<int>)
    requires p != [] && init == p[..|p| - 1] && last == p[|p| - 1]
    ensures StreamingRows(cfg, p) == StreamingRow(StreamingRows(cfg, init), cfg, last)
  {
  }

  /** Pairing after one more row: success extends `OfflineOk`. */
  lemma OfflineOkSnoc(xs: seq<seq<int>>, t: seq<real>, k: nat)
    requires k < |xs| && OfflineOk(xs[..k], t)
    requires PairsInRange(t, Extract(OfflineConfig, xs[..k + 1]).qIdx, Extract(OfflineConfig, xs[..k + 1]).sIdx)
    ensures OfflineOk(xs[..k + 1], t)
  {
    assert xs[..k + 1][..k] == xs[..k];
  }

  /** Pairing after one more row appends the new pairs to the durations. */
  lemma OfflineDurationsSnoc(xs: seq<seq<int>>, t: seq<real>, k: nat)
    requires k < |xs|
    requires PairsInRange(t, Extract(OfflineConfig, xs[..k + 1]).qIdx, Extract(OfflineConfig, xs[..k + 1]).sIdx)
    ensures var e := Extract(OfflineConfig, xs[..k + 1]);
      OfflineDurations(xs[..k + 1], t) == OfflineDurations(xs[..k], t) + ZipDurations(t, e.qIdx, e.sIdx).value
  {
    var ys := xs[..k + 1];
    assert ys[..|ys| - 1] == xs[..k];
  }

  // ---------------------------------------------------------------------
  // The lists as mutable state
  // ---------------------------------------------------------------------

  /** The lists (deques in two of the scripts) the extraction extends. */
  class PeakExtractor {
    const cfg: Config
    var rAmps: seq<int>
    var rIdx: seq<nat>
    var sAmps: seq<int>
    var sIdx: seq<nat>
    var qAmps: seq<int>
    var qIdx: seq<nat>
    var durations: seq<real>
    var rrAll: seq<int>

    function Snapshot(): Extracted
      reads this
    {
      Extracted(rAmps, rIdx, sAmps, sIdx, qAmps, qIdx, durations, rrAll)
    }

    constructor (cfg: Config)
      ensures this.cfg == cfg && Snapshot() == Empty
    {
      this.cfg := cfg;
      rAmps, rIdx, sAmps, sIdx, qAmps, qIdx := [], [], [], [], [], [];
      durations, rrAll := [], [];
    }

    /** The lists are created afresh. */
    method Reset()
      modifies this
      ensures Snapshot() == Empty
    {
      rAmps, rIdx, sAmps, sIdx, qAmps, qIdx := [], [], [], [], [], [];
      durations, rrAll := [], [];
    }

    /** R extraction for one row; returns the row's R peaks. */
    method ExtractR(x: seq<int>) returns (ps: seq<nat>)
      modifies this
      ensures ps == RPeaks(x)
      ensures Snapshot() == WithR(old(Snapshot()), cfg, x)
    {
      ps := RPeaks(x);
      AppendPerPeak(AmpsAt(x, ps), ps);
    }

    /** The `for x in r_peaks` loop: the peaks' amplitudes (and indices,
        when recorded) are appended once per peak. */
    method AppendPerPeak(amps: seq<int>, ps: seq<nat>)
      modifies this`rAmps, this`rIdx
      ensures rAmps == old(rAmps) + Repeat(amps, |ps|)
      ensures rIdx == if cfg.tracksIndices then old(rIdx) + Repeat(ps, |ps|) else old(rIdx)
    {
      for c := 0 to |ps|
        invariant rAmps == old(rAmps) + Repeat(amps, c)
        invariant cfg.tracksIndices ==> rIdx == old(rIdx) + Repeat(ps, c)
        invariant !cfg.tracksIndices ==> rIdx == old(rIdx)
      {
        rAmps := rAmps + amps;
        if cfg.tracksIndices {
          assert Repeat(ps, c + 1) == Repeat(ps, c) + ps;
          rIdx := rIdx + ps;
        }
      }
    }

    /** S or Q extraction for one row, R peak after R peak. */
    method ExtractSide(x: seq<int>, side: Side, rs: seq<nat>)
      requires forall k :: 0 <= k < |rs| ==> rs[k] < |x|
      modifies this
      ensures Snapshot() == WithSide(old(Snapshot()), cfg, x, side, rs)
    {
      for k := 0 to |rs|
        invariant Snapshot() == WithSide(old(Snapshot()), cfg, x, side, rs[..k])
      {
        var hs := Hits(x, side, rs[k], cfg.window, cfg.qsHeight);
        assert rs[..k + 1][..k] == rs[..k];
        WithHitsAppend(old(Snapshot()), cfg, side, RowHits(x, side, rs[..k], cfg.window, cfg.qsHeight), hs);
        if side == After {
          sAmps := sAmps + Amps(hs);
          if cfg.tracksIndices {
            sIdx := sIdx + Idxs(hs);
          }
        } else {
          qAmps := qAmps + Amps(hs);
          if cfg.tracksIndices {
            qIdx := qIdx + Idxs(hs);
          }
        }
      }
      assert rs[..|rs|] == rs;
    }

    /** `rr_intervals_all.extend(np.diff(r_peak_amplitudes))`. */
    method AppendRrDiffs()
      modifies this`rrAll
      ensures Snapshot() == WithRr(old(Snapshot()))
    {
      for i := 0 to |rAmps|
        invariant rrAll == old(rrAll) + Diffs(rAmps[..i])
      {
        if i > 0 {
          DiffsSnoc(rAmps, i);
          rrAll := rrAll + [rAmps[i] - rAmps[i - 1]];
        }
      }
      assert rAmps[..|rAmps|] == rAmps;
    }

    /** `calculate_qrs_durations`: false when a lookup raises, in which case
        the enclosing call is abandoned and the lists are not observed. */
    method PairDurations(t: seq<real>) returns (ok: bool)
      modifies this
      ensures ok == WithDurations(old(Snapshot()), t).Some?
      ensures Snapshot() == if ok then WithDurations(old(Snapshot()), t).value else old(Snapshot())
    {
      var n := Min(|qIdx|, |sIdx|);
      var d: seq<real> := [];
      for i := 0 to n
        invariant ZipUpTo(t, qIdx, sIdx, i) == Some(d)
      {
        if qIdx[i] >= |t| || sIdx[i] >= |t| {
          assert !PairsInRange(t, qIdx, sIdx);
          return false;
        }
        d := d + [Abs(t[sIdx[i]] - t[qIdx[i]]) / 100.0];
      }
      durations := durations + d;
      ok := true;
    }

    /** R, S and Q extraction of one row. */
    method ProcessRow(x: seq<int>)
      modifies this
      ensures Snapshot() == ExtractRow(old(Snapshot()), cfg, x)
    {
      var ps := ExtractR(x);
      ExtractSide(x, After, ps);
      ExtractSide(x, Before, ps);
    }

    /** A row of test/signalprocessing.py: R extraction, the RR
        differences, then S and Q extraction. */
    method StreamingProcessRow(x: seq<int>)
      modifies this
      ensures Snapshot() == StreamingRow(old(Snapshot()), cfg, x)
    {
      var ps := ExtractR(x);
      AppendRrDiffs();
      ExtractSide(x, After, ps);
      ExtractSide(x, Before, ps);
    }

    /** One pass of the outer loop of test/signalprocessing.py: the first
        timestamp is read (an empty table raises before anything is reset),
        the lists are reset, and every row is processed. */
    method StreamingPass(rows: seq<EcgRow>) returns (ok: bool)
      modifies this
      ensures ok <==> rows != []
      ensures ok ==> Snapshot() == StreamingRows(cfg, EcgsOf(rows))
      ensures !ok ==> Snapshot() == old(Snapshot())
    {
      if rows == [] {
        return false;
      }
      Reset();
      var xs := EcgsOf(rows);
      for k := 0 to |xs|
        invariant Snapshot() == StreamingRows(cfg, xs[..k])
      {
        StreamingSnoc(cfg, xs, k);
        StreamingProcessRow(xs[k]);
      }
      assert xs[..|xs|] == xs;
      ok := true;
    }
  }

  /** `signalProcessing` of test/offline.py: pairing after every row. */
  method Offline(rows: seq<EcgRow>) returns (out: Option<Extracted>)
    ensures out == OfflineResult(rows)
  {
    var times := RelativeTimes(TimesOf(rows));
    if times.None? {
      return None;
    }
    var t := times.value;
    var xs := EcgsOf(rows);
    var ex := new PeakExtractor(OfflineConfig);
    for k := 0 to |xs|
      invariant ex.cfg == OfflineConfig
      invariant OfflineOk(xs[..k], t)
      invariant ex.Snapshot() == Extract(OfflineConfig, xs[..k]).(durations := OfflineDurations(xs[..k], t))
    {
      ExtractSnoc(OfflineConfig, xs, k);
      ExtractRowKeepsDurations(Extract(OfflineConfig, xs[..k]), OfflineConfig, xs[k], OfflineDurations(xs[..k], t));
      ex.ProcessRow(xs[k]);
      var ok := ex.PairDurations(t);
      if !ok {
        OfflineFailsAt(xs, t, k + 1);
        return None;
      }
      OfflineOkSnoc(xs, t, k);
      OfflineDurationsSnoc(xs, t, k);
    }
    assert xs[..|xs|] == xs;
    out := Some(ex.Snapshot());
  }

  /** `signalProcessingQRS`: pairing once, after all rows. */
  method Component(rows: seq<EcgRow>) returns (out: Option<Extracted>)
    ensures out == ComponentResult(rows)
  {
    var times := RelativeTimes(TimesOf(rows));
    if times.None? {
      return None;
    }
    var xs := EcgsOf(rows);
    var ex := new PeakExtractor(OfflineConfig);
    for k := 0 to |xs|
      invariant ex.cfg == OfflineConfig
      invariant ex.Snapshot() == Extract(OfflineConfig, xs[..k])
    {
      ExtractSnoc(OfflineConfig, xs, k);
      ex.ProcessRow(xs[k]);
    }
    assert xs[..|xs|] == xs;
    var ok := ex.PairDurations(times.value);
    out := if ok then Some(ex.Snapshot()) else None;
  }
}
