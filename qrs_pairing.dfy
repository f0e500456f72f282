/** QRS-duration pairing of the live pipelines (`ecg_signalprocessing` /
    `signalProcessing`): for every R peak reported by the ECG delineator,
    the nearest Q peak strictly before it and the nearest S peak strictly
    after it are taken, and the duration (S - Q) / 50 s is recorded when
    both exist.  The peak index sequences come from neurokit2 and are
    parameters here. */
module QrsPairing {
  import opened Options

  // The sampling rate is 50 Hz: a sample count divided by 50.0 is seconds.

  /** Some element of `xs` lies strictly below `r`. */
  predicate AnyBelow(xs: seq<int>, r: int) {
    exists i :: 0 <= i < |xs| && xs[i] < r
  }

  /** Some element of `xs` lies strictly above `r`. */
  predicate AnyAbove(xs: seq<int>, r: int) {
    exists i :: 0 <= i < |xs| && xs[i] > r
  }

  /** `v` is an element of `xs` below `r`, and no element below `r` exceeds it. */
  predicate GreatestBelow(xs: seq<int>, r: int, v: int) {
    v < r && v in xs && forall i :: 0 <= i < |xs| && xs[i] < r ==> xs[i] <= v
  }

  /** `v` is an element of `xs` above `r`, and no element above `r` is smaller. */
  predicate LeastAbove(xs: seq<int>, r: int, v: int) {
    v > r && v in xs && forall i :: 0 <= i < |xs| && xs[i] > r ==> v <= xs[i]
  }

  /** `max([q for q in qs if q < r], default=None)` */
  function NearestBefore(qs: seq<int>, r: int): (o: Option<int>)
    ensures o.Some? <==> AnyBelow(qs, r)
    ensures o.Some? ==> GreatestBelow(qs, r, o.value)
  {
    if |qs| == 0 then None
    else
      var rest := NearestBefore(qs[1..], r);
      assert forall i :: 1 <= i < |qs| ==> qs[i] == qs[1..][i - 1];
      if qs[0] < r && (rest.None? || rest.value < qs[0]) then Some(qs[0])
      else rest
  }

  /** `min([s for s in ss if s > r], default=None)` */
  function NearestAfter(ss: seq<int>, r: int): (o: Option<int>)
    ensures o.Some? <==> AnyAbove(ss, r)
    ensures o.Some? ==> LeastAbove(ss, r, o.value)
  {
    if |ss| == 0 then None
    else
      var rest := NearestAfter(ss[1..], r);
      assert forall i :: 1 <= i < |ss| ==> ss[i] == ss[1..][i - 1];
      if ss[0] > r && (rest.None? || rest.value > ss[0]) then Some(ss[0])
      else rest
  }

  /** What one R peak contributes to `qrs_durations`: nothing, or the
      duration between its Q and S neighbours in seconds. */
  function PairFor(r: int, qs: seq<int>, ss: seq<int>): (d: seq<real>)
    ensures |d| <= 1
    ensures |d| == 1 <==> NearestBefore(qs, r).Some? && NearestAfter(ss, r).Some?
    ensures |d| == 1 ==> d[0] == (NearestAfter(ss, r).value - NearestBefore(qs, r).value) as real / 50.0
    ensures |d| == 1 ==> d[0] >= 0.04
  {
    var q := NearestBefore(qs, r);
    var s := NearestAfter(ss, r);
    if q.Some? && s.Some? then [(s.value - q.value) as real / 50.0] else []
  }

  /** The durations the loop `for r in r_peaks` appends, in R-peak order. */
  function Durations(rs: seq<int>, qs: seq<int>, ss: seq<int>): (d: seq<real>)
    ensures |d| <= |rs|
    ensures forall k :: 0 <= k < |d| ==> d[k] >= 0.04
  {
    if rs == [] then []
    else Durations(rs[..|rs| - 1], qs, ss) + PairFor(rs[|rs| - 1], qs, ss)
  }

  /** The loop of `ecg_signalprocessing`, appending to `qrs_durations`. */
  method ComputeQrsDurations(rs: seq<int>, qs: seq<int>, ss: seq<int>) returns (durations: seq<real>)
    ensures durations == Durations(rs, qs, ss)
  {
    durations := [];
    for i := 0 to |rs|
      invariant durations == Durations(rs[..i], qs, ss)
    {
      var q := NearestBefore(qs, rs[i]);
      var s := NearestAfter(ss, rs[i]);
      if q.Some? && s.Some? {
        durations := durations + [(s.value - q.value) as real / 50.0];
      }
      assert rs[..i + 1][..i] == rs[..i];
    }
    assert rs[..|rs|] == rs;
  }

  /** An R peak yields a duration exactly when it has a Q peak before it
      and an S peak after it; the count of durations is the count of such
      R peaks. */
  lemma {:induction false} DurationsCount(rs: seq<int>, qs: seq<int>, ss: seq<int>)
    ensures |Durations(rs, qs, ss)| == |Paired(rs, qs, ss)|
    ensures |Durations(rs, qs, ss)| == |rs| <==>
      forall i :: 0 <= i < |rs| ==> AnyBelow(qs, rs[i]) && AnyAbove(ss, rs[i])
  {
    DurationsPairedCount(rs, qs, ss);
    DurationsAllPaired(rs, qs, ss);
  }

  lemma {:induction false} DurationsPairedCount(rs: seq<int>, qs: seq<int>, ss: seq<int>)
    ensures |Durations(rs, qs, ss)| == |Paired(rs, qs, ss)|
  {
    if rs != [] {
      DurationsPairedCount(rs[..|rs| - 1], qs, ss);
    }
  }

  lemma {:induction false} DurationsAllPaired(rs: seq<int>, qs: seq<int>, ss: seq<int>)
    ensures |Durations(rs, qs, ss)| == |rs| <==>
      forall i :: 0 <= i < |rs| ==> AnyBelow(qs, rs[i]) && AnyAbove(ss, rs[i])
  {
    if rs != [] {
      var init, last := rs[..|rs| - 1], rs[|rs| - 1];
      DurationsAllPaired(init, qs, ss);
      assert |Durations(rs, qs, ss)| == |Durations(init, qs, ss)| + |PairFor(last, qs, ss)|;
      assert forall i :: 0 <= i < |init| ==> init[i] == rs[i];
      if forall i :: 0 <= i < |init| ==> AnyBelow(qs, init[i]) && AnyAbove(ss, init[i]) {
        if AnyBelow(qs, last) && AnyAbove(ss, last) {
          forall i | 0 <= i < |rs| ensures AnyBelow(qs, rs[i]) && AnyAbove(ss, rs[i]) {
            if i < |init| { assert rs[i] == init[i]; }
          }
        }
      }
    }
  }

  /** The R peaks that have both neighbours, in order. */
  function Paired(rs: seq<int>, qs: seq<int>, ss: seq<int>): (p: seq<int>)
    ensures forall x :: x in p ==> x in rs
  {
    if rs == [] then []
    else
      var r := rs[|rs| - 1];
      Paired(rs[..|rs| - 1], qs, ss)
        + (if NearestBefore(qs, r).Some? && NearestAfter(ss, r).Some? then [r] else [])
  }

  /** Each duration belongs to one paired R peak, and is the distance from
      that peak's nearest earlier Q to its nearest later S, over 50. */
  lemma {:induction false} DurationsMatchPairedPeaks(rs: seq<int>, qs: seq<int>, ss: seq<int>, k: nat)
    requires k < |Durations(rs, qs, ss)|
    ensures k < |Paired(rs, qs, ss)|
    ensures var r := Paired(rs, qs, ss)[k];
      NearestBefore(qs, r).Some? && NearestAfter(ss, r).Some? &&
      Durations(rs, qs, ss)[k]
        == (NearestAfter(ss, r).value - NearestBefore(qs, r).value) as real / 50.0
  {
    var init := rs[..|rs| - 1];
    DurationsCount(rs, qs, ss);
    DurationsCount(init, qs, ss);
    if k < |Durations(init, qs, ss)| {
      DurationsMatchPairedPeaks(init, qs, ss, k);
    }
  }

  /** A window with no R peaks yields no durations. */
  lemma NoPeaksNoDurations(qs: seq<int>, ss: seq<int>)
    ensures Durations([], qs, ss) == []
  {
  }

  /** One clean cardiac cycle: Q at 40, R at 50, S at 65 gives one
      duration of 25 / 50 = 0.5 s. */
  lemma OneCycle()
    ensures Durations([50], [40], [65]) == [0.5]
  {
    assert NearestBefore([40], 50) == Some(40);
    assert NearestAfter([65], 50) == Some(65);
  }
}
