/** Concatenation of recorded ECG rows before delineation
    (`signalProcessing` of proj/db_tests/3.0melodygeneration_og.py and the
    single-frame `ecg_signalprocessing` of proj/online.py): each row's text
    is cleaned and split into samples, the samples are appended to one flat
    array, the running sample count is appended to `offsets` and the row's
    timestamp to `times`.  The delineator's R/Q/S output is a parameter. */
module Recording {
  import opened Cleaning
  import opened QrsPairing

  /** One row of the recorded table: its timestamp and its ECG text. */
  datatype Row = Row(time: int, ecg: string)

  /** R, Q and S sample indices reported by the delineator for the flat
      sample array. */
  datatype PeakSet = PeakSet(r: seq<int>, q: seq<int>, s: seq<int>)

  /** What `signalProcessing` returns besides the peaks themselves. */
  datatype Features = Features(qrsDurations: seq<real>, rrValues: seq<real>)

  /** The RR list `signalProcessing` returns whatever its input. */
  const FixedRr: seq<real> := [0.9, 0.8, 1.2, 1.1, 0.9, 0.7, 0.5, 0.8, 0.7]

  /** The sample tokens of one row. */
  function RowSamples(row: Row): seq<string> {
    Split(Clean(row.ecg))
  }

  /** The number of characters of the rows' ECG texts. */
  function EcgChars(rows: seq<Row>): nat {
    if rows == [] then 0 else EcgChars(rows[..|rows| - 1]) + |rows[|rows| - 1].ecg|
  }

  /** All samples of the rows, row after row. */
  function Samples(rows: seq<Row>): (s: seq<string>)
    ensures |s| <= EcgChars(rows)
  {
    if rows == [] then [] else Samples(rows[..|rows| - 1]) + RowSamples(rows[|rows| - 1])
  }

  /** The values appended to `offsets`: the array length after each row,
      starting from an array of `base` samples. */
  function RunningTotals(rows: seq<Row>, base: nat): (t: seq<nat>)
    ensures |t| == |rows|
  {
    if rows == [] then []
    else RunningTotals(rows[..|rows| - 1], base) + [base + |Samples(rows)|]
  }

  /** The timestamps appended to `times`, one per row in row order. */
  function Times(rows: seq<Row>): (ts: seq<int>)
    ensures |ts| == |rows|
  {
    if rows == [] then [] else Times(rows[..|rows| - 1]) + [rows[|rows| - 1].time]
  }

  /** Entry `k` of the timestamps is row `k`'s time. */
  lemma {:induction false} TimesInRowOrder(rows: seq<Row>)
    ensures forall k :: 0 <= k < |rows| ==> Times(rows)[k] == rows[k].time
  {
    if rows != [] {
      TimesInRowOrder(rows[..|rows| - 1]);
    }
  }

  /** `offsets` after the loop, for the initial list `[0]` and an empty
      array. */
  function Offsets(rows: seq<Row>): (o: seq<nat>)
    ensures |o| == |rows| + 1 && o[0] == 0
  {
    [0] + RunningTotals(rows, 0)
  }

  /** The module-level `offsets` and `times` lists, which the function
      appends to in place. */
  class RowIndex {
    var offsets: seq<nat>
    var times: seq<int>

    constructor ()
      ensures offsets == [0] && times == []
    {
      offsets, times := [0], [];
    }
  }

  /** `signalProcessing`: the row loop, then QRS pairing on the
      delineator's peaks, then the fixed RR list.  The script rebinds `arr`
      locally and hands it only to the delineator; the `arr` output stands
      for that array, which the script does not return.  `index` is
      updated in place. */
  method SignalProcessing(rows: seq<Row>, arr0: seq<string>, index: RowIndex, peaks: PeakSet)
    returns (arr: seq<string>, features: Features)
    modifies index
    ensures arr == arr0 + Samples(rows)
    ensures index.offsets == old(index.offsets) + RunningTotals(rows, |arr0|)
    ensures index.times == old(index.times) + Times(rows)
    ensures features == Features(Durations(peaks.r, peaks.q, peaks.s), FixedRr)
  {
    arr := arr0;
    for k := 0 to |rows|
      invariant Loaded(rows[..k], arr0, arr, old(index.offsets), index.offsets, old(index.times), index.times)
    {
      var conversion := Split(Clean(rows[k].ecg));
      LoadedStep(rows, k, arr0, arr, old(index.offsets), index.offsets, old(index.times), index.times);
      arr := arr + conversion;
      index.offsets := index.offsets + [|arr|];
      index.times := index.times + [rows[k].time];
    }
    assert rows[..|rows|] == rows;
    var durations := ComputeQrsDurations(peaks.r, peaks.q, peaks.s);
    features := Features(durations, FixedRr);
  }

  /** The array and the two lists after the rows `done`, starting from
      `arr0`, `offsets0` and `times0`. */
  ghost predicate Loaded(done: seq<Row>, arr0: seq<string>, arr: seq<string>,
                         offsets0: seq<nat>, offsets: seq<nat>, times0: seq<int>, times: seq<int>)
  {
    arr == arr0 + Samples(done) &&
    offsets == offsets0 + RunningTotals(done, |arr0|) &&
    times == times0 + Times(done)
  }

  /** Appending one more row's samples, running total and timestamp keeps
      `Loaded`. */
  lemma LoadedStep(rows: seq<Row>, k: nat, arr0: seq<string>, arr: seq<string>,
                   offsets0: seq<nat>, offsets: seq<nat>, times0: seq<int>, times: seq<int>)
    requires k < |rows| && Loaded(rows[..k], arr0, arr, offsets0, offsets, times0, times)
    ensures var arr' := arr + Split(Clean(rows[k].ecg));
      Loaded(rows[..k + 1], arr0, arr', offsets0, offsets + [|arr'|], times0, times + [rows[k].time])
  {
    var done, arr' := rows[..k + 1], arr + RowSamples(rows[k]);
    SamplesSnoc(rows, k);
    assert arr' == arr0 + Samples(done);
    TotalsSnoc(done, rows[..k], |arr0|);
    TimesSnoc(done, rows[..k]);
  }

  lemma TotalsSnoc(p: seq<Row>, init: seq<Row>, base: nat)
    requires p != [] && init == p[..|p| - 1]
    ensures RunningTotals(p, base) == RunningTotals(init, base) + [base + |Samples(p)|]
  {
  }

  lemma TimesSnoc(p: seq<Row>, init: seq<Row>)
    requires p != [] && init == p[..|p| - 1]
    ensures Times(p) == Times(init) + [p[|p| - 1].time]
  {
  }

  /** The running totals start at the base and step by each row's sample
      count. */
  lemma {:induction false} RunningTotalsAt(rows: seq<Row>, base: nat, k: nat)
    requires k < |rows|
    ensures RunningTotals(rows, base)[k] == base + |Samples(rows[..k + 1])|
  {
    var init := rows[..|rows| - 1];
    if k < |rows| - 1 {
      RunningTotalsAt(init, base, k);
      assert init[..k + 1] == rows[..k + 1];
    } else {
      assert rows[..k + 1] == rows;
    }
  }

  /** The samples of the first `k + 1` rows are those of the first `k`
      rows followed by row `k`'s. */
  lemma SamplesSnoc(rows: seq<Row>, k: nat)
    requires k < |rows|
    ensures Samples(rows[..k + 1]) == Samples(rows[..k]) + RowSamples(rows[k])
  {
    assert rows[..k + 1][..k] == rows[..k];
  }

  /** Entry `k` of `offsets` is the number of samples in the first `k`
      rows. */
  lemma OffsetAt(rows: seq<Row>, k: nat)
    requires k <= |rows|
    ensures |Offsets(rows)| == |rows| + 1
    ensures Offsets(rows)[k] == |Samples(rows[..k])|
  {
    if k > 0 {
      RunningTotalsAt(rows, 0, k - 1);
      ConsAt(0, RunningTotals(rows, 0), Offsets(rows), k);
    } else {
      assert rows[..0] == [];
    }
  }

  /** `offsets` has one entry more than there are rows, starts at 0, ends at
      the array length and never decreases. */
  lemma OffsetsShape(rows: seq<Row>)
    ensures |Offsets(rows)| == |rows| + 1
    ensures Offsets(rows)[0] == 0
    ensures Offsets(rows)[|rows|] == |Samples(rows)|
    ensures forall i, j :: 0 <= i <= j <= |rows| ==> Offsets(rows)[i] <= Offsets(rows)[j]
  {
    OffsetAt(rows, |rows|);
    assert rows[..|rows|] == rows;
    forall i, j | 0 <= i <= j <= |rows| ensures Offsets(rows)[i] <= Offsets(rows)[j] {
      OffsetAt(rows, i);
      OffsetAt(rows, j);
      SamplesPrefix(rows, i, j);
    }
  }

  lemma ConsAt(x: nat, t: seq<nat>, o: seq<nat>, k: nat)
    requires o == [x] + t && 0 < k <= |t|
    ensures o[k] == t[k - 1]
  {
  }

  /** Consecutive entries of `offsets` bracket exactly the samples of one
      row in the flat array. */
  lemma RowSlice(rows: seq<Row>, k: nat)
    requires k < |rows|
    ensures |Offsets(rows)| == |rows| + 1
    ensures Offsets(rows)[k] + |RowSamples(rows[k])| == Offsets(rows)[k + 1] <= |Samples(rows)|
    ensures Samples(rows)[Offsets(rows)[k] .. Offsets(rows)[k + 1]] == RowSamples(rows[k])
  {
    OffsetAt(rows, k);
    OffsetAt(rows, k + 1);
    SamplesSnoc(rows, k);
    SamplesPrefix(rows, k + 1, |rows|);
    assert rows[..|rows|] == rows;
    SliceOfPrefix(Samples(rows[..k]), RowSamples(rows[k]), Samples(rows[..k + 1]), Samples(rows),
                  Offsets(rows)[k], Offsets(rows)[k + 1]);
  }

  /** When `a + b` is a prefix of `c`, `b` sits in `c` between `|a|` and
      `|a + b|`. */
  lemma SliceOfPrefix<T>(a: seq<T>, b: seq<T>, ab: seq<T>, c: seq<T>, lo: nat, hi: nat)
    requires ab == a + b && ab <= c && lo == |a| && hi == |ab|
    ensures lo + |b| == hi <= |c| && c[lo .. hi] == b
  {
    assert c[..hi] == a + b;
  }

  /** The samples of a shorter prefix of the rows are a prefix of the
      samples of a longer one. */
  lemma {:induction false} SamplesPrefix(rows: seq<Row>, i: nat, j: nat)
    requires i <= j <= |rows|
    ensures Samples(rows[..i]) <= Samples(rows[..j])
    decreases j - i
  {
    if i < j {
      SamplesSnoc(rows, j - 1);
      SamplesPrefix(rows, i, j - 1);
      PrefixExtends(Samples(rows[..i]), Samples(rows[..j - 1]), RowSamples(rows[j - 1]), Samples(rows[..j]));
    }
  }

  lemma PrefixExtends<T>(a: seq<T>, b: seq<T>, c: seq<T>, bc: seq<T>)
    requires a <= b && bc == b + c
    ensures a <= bc
  {
    assert bc[..|b|] == b;
  }

  /** The single-frame version in proj/online.py: after one row, `offsets`
      is `[0, n]` for the row's `n` samples and `times` holds its
      timestamp. */
  lemma SingleFrame(row: Row)
    ensures Offsets([row]) == [0, |RowSamples(row)|]
    ensures Times([row]) == [row.time]
  {
    assert [row][..0] == [];
    assert Samples([row]) == RowSamples(row);
  }
}
