/** The per-layer playback callbacks.  Each layer has a metro; on every
    metro trigger a pyo `Counter` advances and a `TrigFunc` callback reads
    the counter and reprograms the layer (the next gong interval, the chime
    or bowl amplitude) or stops it.  The audio objects are left out; what
    the callbacks do to them is recorded as a log of actions. */
module Playback {
  import opened Options
  import Recording

  /** What a callback does to the audio objects. */
  datatype Action =
    | SetSigTo(v: real)   // `SigTo.setValue`
    | SetMetro(v: real)   // `Metro.setTime`
    | SetMul(v: real)     // `SfPlayer.setMul`
    | Play                // `xfade.play()` / `player.out()`
    | StopPlayer
    | StopMetro
    | StopServer
    | Raise               // `EarlyReturnException`
    | Fault               // an `IndexError` or `ZeroDivisionError` inside the callback

  /** The callbacks of the scripts. */
  datatype Callback =
    | HaltInterval(raises: bool)        // gong: stop at the last index, else interval `rr[idx]/10`
    | HaltAmplitude                     // chime: stop the metro at the last index, else `R[idx]/100`
    | WrapInterval(plays: bool)         // gong: `intervals[count % len]`
    | Amplitude(percent: bool, plays: bool)  // chime/bowl: `x[idx]/100` or the raw `x[idx]`

  /** The lookup a callback makes at index `idx` succeeds: the halting
      callbacks test for the last index before they look anything up, and
      the wrap-around gong reduces the count modulo the length. */
  predicate Readable(cb: Callback, values: seq<real>, idx: int)
  {
    match cb
    case HaltInterval(_) => idx == |values| - 1 || 0 <= idx < |values|
    case HaltAmplitude => idx == |values| - 1 || 0 <= idx < |values|
    case WrapInterval(_) => |values| > 0
    case Amplitude(_, _) => 0 <= idx < |values|
  }

  /** The actions for reading index `idx` and whether the metro keeps
      running afterwards.  A failed lookup does nothing but fault, and the
      metro stops exactly when a halting callback reaches the last index. */
  function Respond(cb: Callback, values: seq<real>, idx: int): (r: (seq<Action>, bool))
    ensures Fault in r.0 <==> !Readable(cb, values, idx)
    ensures !Readable(cb, values, idx) ==> r == ([Fault], true)
    ensures StopMetro in r.0 <==> !r.1
    ensures !r.1 <==> (cb.HaltInterval? || cb.HaltAmplitude?) && idx == |values| - 1
  {
    match cb
    case HaltInterval(raises) =>
      if idx == |values| - 1 then ([StopPlayer, StopMetro, StopServer] + (if raises then [Raise] else []), false)
      else if 0 <= idx < |values| then ([SetSigTo(values[idx] / 10.0), SetMetro(values[idx] / 10.0), Play], true)
      else ([Fault], true)
    case HaltAmplitude =>
      if idx == |values| - 1 then ([StopMetro], false)
      else if 0 <= idx < |values| then ([SetMul(values[idx] / 100.0), Play], true)
      else ([Fault], true)
    case WrapInterval(plays) =>
      if |values| == 0 then ([Fault], true)
      else
        var x := values[idx % |values|];
        ([SetSigTo(x), SetMetro(x)] + (if plays then [Play] else []), true)
    case Amplitude(percent, plays) =>
      if 0 <= idx < |values| then
        ([SetMul(if percent then values[idx] / 100.0 else values[idx])] + (if plays then [Play] else []), true)
      else ([Fault], true)
  }

  // ---------------------------------------------------------------------
  // The counter
  // ---------------------------------------------------------------------

  /** The bound below which a counter's values stay.  pyo does not check
      `min < max`: the step `tmp += 1; if tmp >= max: tmp = min` makes a
      counter with `max <= min` output `min` for good, so its values lie in
      `[lo, lo + 1)`. */
  function Top(lo: int, hi: int): int
  {
    if lo < hi then hi else lo + 1
  }

  /** The counter's next value after `v`: one more, back to `lo` at `hi`. */
  function Advance(lo: int, hi: int, v: int): (w: int)
    requires lo <= v < Top(lo, hi)
    ensures lo <= w < Top(lo, hi)
  {
    if v + 1 >= hi then lo else v + 1
  }

  /** A pyo `Counter(input, min=lo, max=hi)`: on each trigger it outputs
      its next value and steps, counting `lo, lo+1, ..., hi-1, lo, ...`
      (`max` itself is never output).  Before the first trigger it
      outputs `lo`.  A counter with `hi <= lo` is accepted, as pyo accepts
      it, and outputs `lo` on every trigger. */
  class Counter {
    const lo: int
    const hi: int
    var next: int
    var out: int

    ghost predicate Valid()
      reads this
    {
      lo <= next < Top(lo, hi) && lo <= out < Top(lo, hi)
    }

    constructor (lo: int, hi: int)
      ensures Valid() && this.lo == lo && this.hi == hi && next == lo && out == lo
    {
      this.lo, this.hi := lo, hi;
      next, out := lo, lo;
    }

    method Tick()
      requires Valid()
      modifies this
      ensures Valid()
      ensures out == old(next) && next == Advance(lo, hi, old(next))
    {
      out := next;
      next := if next + 1 >= hi then lo else next + 1;
    }
  }

  /** The value output at the `k`-th trigger, counting from 0. */
  function CountAt(lo: int, hi: int, k: nat): int
  {
    lo + k % (Top(lo, hi) - lo)
  }

  /** Before the first wrap the counter outputs its trigger number. */
  lemma CountAtBeforeWrap(m: int, k: nat)
    requires k < m
    ensures CountAt(0, m, k) == k
  {
    ModUnique(k, m, 0, k);
  }

  /** Division with remainder determines the remainder. */
  lemma ModUnique(x: int, m: int, q: int, r: int)
    requires m > 0 && 0 <= r < m && x == q * m + r
    ensures x % m == r
  {
    var q', r' := x / m, x % m;
    assert x == q' * m + r';
    assert (q - q') * m == r' - r;
    if q > q' {
      MulAtLeast(q - q', m);
    } else if q < q' {
      MulAtLeast(q' - q, m);
    }
  }

  lemma MulAtLeast(d: int, m: int)
    requires d >= 1 && m > 0
    ensures d * m >= m
  {
    assert d * m == (d - 1) * m + m;
    assert (d - 1) * m >= 0;
  }

  /** Advancing from the `k`-th value gives the `k+1`-th: the counter runs
      through `[lo, hi)` cyclically. */
  lemma AdvanceCountAt(lo: int, hi: int, k: nat)
    ensures lo <= CountAt(lo, hi, k) < Top(lo, hi)
    ensures Advance(lo, hi, CountAt(lo, hi, k)) == CountAt(lo, hi, k + 1)
  {
    var m := Top(lo, hi) - lo;
    var q, r := k / m, k % m;
    assert k == q * m + r;
    if r + 1 == m {
      ModUnique(k + 1, m, q + 1, 0);
    } else {
      ModUnique(k + 1, m, q, r + 1);
    }
  }

  // ---------------------------------------------------------------------
  // A layer: counter, values, callback, metro state and log
  // ---------------------------------------------------------------------

  /** The counter's two values, whether the metro runs, and the log. */
  datatype LayerState = LayerState(next: int, out: int, running: bool, log: seq<Action>)

  /** One metro trigger: a stopped metro does not trigger; otherwise the
      counter steps (when this metro drives it) and the callback runs on
      the counter's output. */
  function Trigger(cb: Callback, values: seq<real>, lo: int, hi: int, ticks: bool, s: LayerState): (t: LayerState)
    requires lo <= s.next < Top(lo, hi) && lo <= s.out < Top(lo, hi)
    ensures lo <= t.next < Top(lo, hi) && lo <= t.out < Top(lo, hi)
  {
    if !s.running then s
    else
      var next, out := if ticks then Advance(lo, hi, s.next) else s.next, if ticks then s.next else s.out;
      var r := Respond(cb, values, out);
      LayerState(next, out, r.1, s.log + r.0)
  }

  /** The state after `n` triggers of a layer driving its own counter. */
  function Fires(cb: Callback, values: seq<real>, lo: int, hi: int, n: nat): (s: LayerState)
    ensures lo <= s.next < Top(lo, hi) && lo <= s.out < Top(lo, hi)
  {
    if n == 0 then LayerState(lo, lo, true, [])
    else Trigger(cb, values, lo, hi, true, Fires(cb, values, lo, hi, n - 1))
  }

  /** The actions of reading the values at triggers `0 .. n-1` of a counter
      over `[lo, hi)`. */
  function FreeLog(cb: Callback, values: seq<real>, lo: int, hi: int, n: nat): (log: seq<Action>)
    ensures |log| >= n
  {
    if n == 0 then [] else FreeLog(cb, values, lo, hi, n - 1) + Respond(cb, values, CountAt(lo, hi, n - 1)).0
  }

  /** A layer that never stops (wrap-around gong, chime or bowl
      amplitude): at trigger `k` it reads the counter's `k`-th value and the
      metro keeps running. */
  lemma {:induction false} FreeRunning(cb: Callback, values: seq<real>, lo: int, hi: int, n: nat)
    requires cb.WrapInterval? || cb.Amplitude?
    ensures Fires(cb, values, lo, hi, n) == LayerState(CountAt(lo, hi, n), if n == 0 then lo else CountAt(lo, hi, n - 1), true, FreeLog(cb, values, lo, hi, n))
  {
    if n > 0 {
      FreeRunning(cb, values, lo, hi, n - 1);
      AdvanceCountAt(lo, hi, n - 1);
    }
  }

  /** A halting layer whose counter covers `[0, |values|)`: the first
      `|values| - 1` triggers program values `0 .. |values|-2`, the
      `|values|`-th stops the metro, and nothing happens afterwards. */
  lemma HaltTrace(cb: Callback, values: seq<real>, n: nat)
    requires (cb.HaltInterval? || cb.HaltAmplitude?) && |values| >= 1
    ensures var s := Fires(cb, values, 0, |values|, n);
      s.running <==> n < |values|
    ensures var s := Fires(cb, values, 0, |values|, n);
      s.log == FreeLog(cb, values, 0, |values|, if n < |values| then n else |values|)
  {
    if n <= |values| {
      HaltTraceUpTo(cb, values, n);
    } else {
      HaltTraceAfter(cb, values, n);
    }
  }

  /** Up to the last index a halting layer logs its responses in order. */
  lemma {:induction false} HaltTraceUpTo(cb: Callback, values: seq<real>, n: nat)
    requires (cb.HaltInterval? || cb.HaltAmplitude?) && 1 <= |values| && n <= |values|
    ensures Fires(cb, values, 0, |values|, n).running <==> n < |values|
    ensures Fires(cb, values, 0, |values|, n).log == FreeLog(cb, values, 0, |values|, n)
  {
    if n > 0 {
      HaltTraceUpTo(cb, values, n - 1);
      FreeRunningPrefix(cb, values, n - 1);
      HaltStep(cb, values, n - 1, Fires(cb, values, 0, |values|, n - 1));
    }
  }

  /** After the last index a halting layer does nothing more. */
  lemma {:induction false} HaltTraceAfter(cb: Callback, values: seq<real>, n: nat)
    requires (cb.HaltInterval? || cb.HaltAmplitude?) && |values| >= 1 && n >= |values|
    ensures !Fires(cb, values, 0, |values|, n).running
    ensures Fires(cb, values, 0, |values|, n).log == FreeLog(cb, values, 0, |values|, |values|)
    decreases n
  {
    if n > |values| {
      HaltTraceAfter(cb, values, n - 1);
      HaltStays(cb, values, Fires(cb, values, 0, |values|, n - 1));
    } else {
      HaltTraceUpTo(cb, values, n);
    }
  }

  /** A stopped layer stays as it is. */
  lemma HaltStays(cb: Callback, values: seq<real>, s: LayerState)
    requires |values| >= 1 && 0 <= s.next < |values| && 0 <= s.out < |values| && !s.running
    ensures Trigger(cb, values, 0, |values|, true, s) == s
  {
  }

  /** Trigger `k` of a halting layer that is still running before its last
      index reads `k` and appends that response. */
  lemma HaltStep(cb: Callback, values: seq<real>, k: nat, s: LayerState)
    requires (cb.HaltInterval? || cb.HaltAmplitude?) && k < |values|
    requires s.running && s.next == k && 0 <= s.out < |values|
    requires s.log == FreeLog(cb, values, 0, |values|, k)
    ensures var t := Trigger(cb, values, 0, |values|, true, s);
      (t.running <==> k + 1 < |values|) && t.log == FreeLog(cb, values, 0, |values|, k + 1)
  {
    CountAtBeforeWrap(|values|, k);
  }

  /** Before the last index a halting layer's counter has output exactly
      `0 .. n-1`. */
  lemma {:induction false} FreeRunningPrefix(cb: Callback, values: seq<real>, n: nat)
    requires (cb.HaltInterval? || cb.HaltAmplitude?) && n < |values|
    ensures Fires(cb, values, 0, |values|, n).next == n
    ensures Fires(cb, values, 0, |values|, n).running
  {
    if n > 0 {
      FreeRunningPrefix(cb, values, n - 1);
      var r := Respond(cb, values, n - 1);
      assert !r.1 ==> n - 1 == |values| - 1;
    }
  }

  /** After its last index a halting layer is stopped for good: the metro
      was stopped exactly once, as the last thing it did, and later
      triggers add nothing. */
  lemma HaltStopsOnce(cb: Callback, values: seq<real>, n: nat)
    requires (cb.HaltInterval? || cb.HaltAmplitude?) && |values| >= 1 && n >= |values|
    ensures var s := Fires(cb, values, 0, |values|, n);
      !s.running && s.log == FreeLog(cb, values, 0, |values|, |values| - 1) + Respond(cb, values, |values| - 1).0
    ensures StopMetro !in FreeLog(cb, values, 0, |values|, |values| - 1)
    ensures StopMetro in Respond(cb, values, |values| - 1).0
  {
    HaltTraceAfter(cb, values, n);
    CountAtBeforeWrap(|values|, |values| - 1);
    assert FreeLog(cb, values, 0, |values|, |values|)
      == FreeLog(cb, values, 0, |values|, |values| - 1) + Respond(cb, values, |values| - 1).0;
    NoStopBefore(cb, values, |values| - 1);
  }

  /** Before the last index, trigger `k` of a halting layer programs the
      value at `k`: the gong sets SigTo and Metro to a tenth of it and
      plays, the chime sets the amplitude to a hundredth of it and plays. */
  lemma HaltLogStep(cb: Callback, values: seq<real>, k: nat)
    requires (cb.HaltInterval? || cb.HaltAmplitude?) && k < |values| - 1
    ensures cb.HaltInterval? ==>
      FreeLog(cb, values, 0, |values|, k + 1)
        == FreeLog(cb, values, 0, |values|, k) + [SetSigTo(values[k] / 10.0), SetMetro(values[k] / 10.0), Play]
    ensures cb.HaltAmplitude? ==>
      FreeLog(cb, values, 0, |values|, k + 1)
        == FreeLog(cb, values, 0, |values|, k) + [SetMul(values[k] / 100.0), Play]
  {
    CountAtBeforeWrap(|values|, k);
  }

  lemma {:induction false} NoStopBefore(cb: Callback, values: seq<real>, k: nat)
    requires (cb.HaltInterval? || cb.HaltAmplitude?) && k < |values|
    ensures StopMetro !in FreeLog(cb, values, 0, |values|, k)
  {
    if k > 0 {
      NoStopBefore(cb, values, k - 1);
      ModUnique(k - 1, |values|, 0, k - 1);
    }
  }

  /** The initial Metro time of a wrap-around gong or of the `s_gong`
      script: the first interval; an empty list raises `IndexError`. */
  function InitialInterval(intervals: seq<real>): (r: Option<real>)
    ensures r.Some? <==> |intervals| > 0
    ensures r.Some? ==> r.value == intervals[0]
  {
    if |intervals| == 0 then None else Some(intervals[0])
  }

  /** `rr_intervals = [value + 3.5 for value in rr_values]`. */
  function GongIntervals(rr: seq<real>): (iv: seq<real>)
    ensures |iv| == |rr|
    ensures forall i :: 0 <= i < |rr| ==> iv[i] == rr[i] + 3.5
  {
    if rr == [] then [] else GongIntervals(rr[..|rr| - 1]) + [rr[|rr| - 1] + 3.5]
  }

  /** Whether an action programs a value (an interval or an amplitude). */
  predicate Programs(a: Action)
  {
    a.SetSigTo? || a.SetMetro? || a.SetMul?
  }

  /** The divisor a callback applies to the value it reads. */
  function Divisor(cb: Callback): real
  {
    match cb
    case HaltInterval(_) => 10.0
    case HaltAmplitude => 100.0
    case WrapInterval(_) => 1.0
    case Amplitude(percent, _) => if percent then 100.0 else 1.0
  }

  /** The indices a callback programs from: a halting callback never
      programs its last value. */
  function ReadLimit(cb: Callback, values: seq<real>): int
  {
    if cb.HaltInterval? || cb.HaltAmplitude? then |values| - 1 else |values|
  }

  /** Every value programmed in `log` is one of `values[0 .. m-1]`, scaled. */
  ghost predicate ReadsBelow(log: seq<Action>, cb: Callback, values: seq<real>, m: int)
  {
    forall j :: 0 <= j < |log| && Programs(log[j]) ==>
      exists i :: 0 <= i < m && i < |values| && log[j].v == values[i] / Divisor(cb)
  }

  lemma ReadsBelowAppend(a: seq<Action>, b: seq<Action>, cb: Callback, values: seq<real>, m: int)
    requires ReadsBelow(a, cb, values, m) && ReadsBelow(b, cb, values, m)
    ensures ReadsBelow(a + b, cb, values, m)
  {
    forall j | 0 <= j < |a + b| && Programs((a + b)[j])
      ensures exists i :: 0 <= i < m && i < |values| && (a + b)[j].v == values[i] / Divisor(cb)
    {
      if j < |a| {
        assert (a + b)[j] == a[j];
      } else {
        assert (a + b)[j] == b[j - |a|];
      }
    }
  }

  /** A callback that reads index `idx` programs only `values[idx]`, and
      only when `idx` is readable. */
  lemma RespondReads(cb: Callback, values: seq<real>, idx: int, m: int)
    requires !cb.WrapInterval? && 0 <= idx < m
    ensures ReadsBelow(Respond(cb, values, idx).0, cb, values, if m < ReadLimit(cb, values) then m else ReadLimit(cb, values))
  {
    var acts := Respond(cb, values, idx).0;
    var bound := if m < ReadLimit(cb, values) then m else ReadLimit(cb, values);
    forall j | 0 <= j < |acts| && Programs(acts[j])
      ensures exists i :: 0 <= i < bound && i < |values| && acts[j].v == values[i] / Divisor(cb)
    {
      assert idx < bound && idx < |values|;
      assert acts[j].v == values[idx] / Divisor(cb);
    }
  }

  /** A non-wrapping callback whose counter covers `[0, hi)` programs only
      values below `hi` that it may read. */
  lemma {:induction false} FreeLogReads(cb: Callback, values: seq<real>, hi: int, k: nat)
    requires !cb.WrapInterval? && 0 < hi
    ensures ReadsBelow(FreeLog(cb, values, 0, hi, k), cb, values, if hi < ReadLimit(cb, values) then hi else ReadLimit(cb, values))
  {
    if k > 0 {
      FreeLogReads(cb, values, hi, k - 1);
      AdvanceCountAt(0, hi, k - 1);
      RespondReads(cb, values, CountAt(0, hi, k - 1), hi);
      ReadsBelowAppend(FreeLog(cb, values, 0, hi, k - 1), Respond(cb, values, CountAt(0, hi, k - 1)).0, cb, values,
        if hi < ReadLimit(cb, values) then hi else ReadLimit(cb, values));
    }
  }

  /** The halting gong never programs the last RR value, and the halting
      chime never the last R amplitude, however often the metro fires. */
  lemma HaltNeverReadsLast(cb: Callback, values: seq<real>, n: nat)
    requires (cb.HaltInterval? || cb.HaltAmplitude?) && |values| >= 1
    ensures ReadsBelow(Fires(cb, values, 0, |values|, n).log, cb, values, |values| - 1)
  {
    HaltTrace(cb, values, n);
    FreeLogReads(cb, values, |values|, if n < |values| then n else |values|);
  }

  /** A chime or bowl counter `Counter(min=0, max=len - 1)` never reaches
      the last amplitude, and never reads past the list. */
  lemma AmplitudeNeverReadsLast(cb: Callback, values: seq<real>, n: nat)
    requires cb.Amplitude? && |values| >= 2
    ensures Fires(cb, values, 0, |values| - 1, n).running
    ensures ReadsBelow(Fires(cb, values, 0, |values| - 1, n).log, cb, values, |values| - 1)
    ensures Fault !in Fires(cb, values, 0, |values| - 1, n).log
  {
    FreeRunning(cb, values, 0, |values| - 1, n);
    FreeLogReads(cb, values, |values| - 1, n);
    NoFault(cb, values, 0, |values| - 1, n);
  }

  /** The lookups of a counter over `[lo, hi)` stay in range: for a
      wrap-around gong whenever the list is non-empty, otherwise whenever
      the counter stays below the length. */
  lemma {:induction false} NoFault(cb: Callback, values: seq<real>, lo: int, hi: int, k: nat)
    requires 0 <= lo
    requires if cb.WrapInterval? then |values| > 0 else Top(lo, hi) <= |values|
    ensures Fault !in FreeLog(cb, values, lo, hi, k)
  {
    if k > 0 {
      NoFault(cb, values, lo, hi, k - 1);
      AdvanceCountAt(lo, hi, k - 1);
    }
  }

  /** `Counter(min=0, max=len(data['R Peaks']))` over a batch without R
      peaks (taetest.py, nkonline.py): the halting chime's counter stays at
      0, which is never the last index of the empty list, so the metro never
      stops and every trigger faults on the lookup. */
  lemma {:induction false} EmptyHaltFaults(cb: Callback, n: nat)
    requires cb.HaltInterval? || cb.HaltAmplitude?
    ensures Fires(cb, [], 0, 0, n).running
    ensures Fires(cb, [], 0, 0, n).log == seq(n, _ => Fault)
  {
    if n > 0 {
      EmptyHaltFaults(cb, n - 1);
      assert seq(n, _ => Fault) == seq(n - 1, _ => Fault) + [Fault];
    }
  }

  /** A counter one short of a one-element list, `Counter(min=0, max=0)`:
      the amplitude layer reads that element on every trigger, never stops
      and never faults. */
  lemma OneValueRepeats(cb: Callback, values: seq<real>, n: nat)
    requires cb.Amplitude? && |values| == 1
    ensures Fires(cb, values, 0, 0, n).running && Fires(cb, values, 0, 0, n).out == 0
    ensures Fires(cb, values, 0, 0, n + 1).log == Fires(cb, values, 0, 0, n).log + Respond(cb, values, 0).0
    ensures Fault !in Fires(cb, values, 0, 0, n).log
  {
    FreeRunning(cb, values, 0, 0, n);
    FreeRunning(cb, values, 0, 0, n + 1);
    CountAtStuck(0, 0, n);
    if n > 0 {
      CountAtStuck(0, 0, n - 1);
    }
    NoFault(cb, values, 0, 0, n);
  }

  /** A counter with `max <= min` outputs `min` at every trigger. */
  lemma CountAtStuck(lo: int, hi: int, k: nat)
    requires hi <= lo
    ensures CountAt(lo, hi, k) == lo
  {
    ModUnique(k, 1, k, 0);
  }

  /** The wrap-around gong with the default `Counter(min=0, max=100)`: the
      `k`-th trigger programs `intervals[(k % 100) % len]`; so the 101st
      trigger restarts at the first interval even when `len` does not
      divide 100. */
  lemma WrapSchedule(plays: bool, intervals: seq<real>, n: nat)
    requires |intervals| > 0
    ensures Fires(WrapInterval(plays), intervals, 0, 100, n).running
    ensures Fault !in Fires(WrapInterval(plays), intervals, 0, 100, n).log
    ensures n > 0 ==> Fires(WrapInterval(plays), intervals, 0, 100, n).out == (n - 1) % 100
    ensures Fires(WrapInterval(plays), intervals, 0, 100, n).log == FreeLog(WrapInterval(plays), intervals, 0, 100, n)
  {
    FreeRunning(WrapInterval(plays), intervals, 0, 100, n);
    NoFault(WrapInterval(plays), intervals, 0, 100, n);
  }

  /** The `s_gong` script: the metro starts at 4.4 seconds and the first
      three triggers program 4.4, 4.3 and 4.7; the 101st programs 4.4
      again, not the second interval as `100 % 9` would suggest. */
  lemma SGongExample()
    ensures InitialInterval(GongIntervals(Recording.FixedRr)) == Some(4.4)
    ensures FreeLog(WrapInterval(false), GongIntervals(Recording.FixedRr), 0, 100, 3)
      == [SetSigTo(4.4), SetMetro(4.4), SetSigTo(4.3), SetMetro(4.3), SetSigTo(4.7), SetMetro(4.7)]
  {
    var iv := GongIntervals(Recording.FixedRr);
    SGongIntervals();
    assert 0 % |iv| == 0 && 1 % |iv| == 1 && 2 % |iv| == 2;
    WrapLogStep(iv, 0);
    WrapLogStep(iv, 1);
    WrapLogStep(iv, 2);
  }

  lemma SGongIntervals()
    ensures var iv := GongIntervals(Recording.FixedRr);
      |iv| == 9 && iv[0] == 4.4 && iv[1] == 4.3 && iv[2] == 4.7
  {
    var rr := Recording.FixedRr;
    assert rr[0] == 0.9 && rr[1] == 0.8 && rr[2] == 1.2;
  }

  /** Before the default counter wraps, trigger `k` of the wrap-around gong
      programs the value at `k mod len`. */
  lemma WrapLogStep(values: seq<real>, k: nat)
    requires |values| > 0 && k < 100
    ensures var x := values[k % |values|];
      FreeLog(WrapInterval(false), values, 0, 100, k + 1) == FreeLog(WrapInterval(false), values, 0, 100, k) + [SetSigTo(x), SetMetro(x)]
  {
    CountAtBeforeWrap(100, k);
  }

  /** The default counter wraps: the 101st trigger reads index 0 again. */
  lemma SGongWraps(values: seq<real>)
    ensures Fires(WrapInterval(false), values, 0, 100, 101).out == 0
  {
    ModUnique(100, 100, 1, 0);
    FreeRunning(WrapInterval(false), values, 0, 100, 101);
  }

  /** In `1.0melodygeneration_og.py` the text of the chime callback reads
      `beat_count`, which by then names the bowl's counter over
      `[0, len(s_peaks) - 1)`: each lookup of an R amplitude it would make
      stays in range if and only if there are at most one more S peaks than
      R peaks.  The script drops that callback before it plays (see
      `SharedCounterLayers`), so this is a property of the callback's text. */
  lemma ChimeOnBowlCounter(r: seq<real>, s: seq<real>)
    requires |s| >= 2
    ensures (forall idx :: 0 <= idx < |s| - 1 ==> Fault !in Respond(Amplitude(false, true), r, idx).0) <==> |s| - 1 <= |r|
  {
    if |s| - 1 > |r| {
      assert Fault in Respond(Amplitude(false, true), r, |r|).0;
    }
  }

  // ---------------------------------------------------------------------
  // Layers as objects, and how each script wires them
  // ---------------------------------------------------------------------

  /** A layer as a script builds it: the callback and its list, the counter
      the callback reads when it runs (whatever `beat_count` names then),
      whether this layer's own metro drives that counter, and what the
      callback has done so far. */
  class Layer {
    const callback: Callback
    const values: seq<real>
    const counter: Counter
    const ticks: bool
    var running: bool
    var log: seq<Action>

    ghost predicate Valid()
      reads this, counter
    {
      counter.Valid()
    }

    function State(): LayerState
      reads this, counter
    {
      LayerState(counter.next, counter.out, running, log)
    }

    constructor (callback: Callback, values: seq<real>, counter: Counter, ticks: bool)
      requires counter.Valid()
      ensures Valid()
      ensures this.callback == callback && this.values == values && this.counter == counter && this.ticks == ticks
      ensures running && log == []
    {
      this.callback, this.values, this.counter, this.ticks := callback, values, counter, ticks;
      running, log := true, [];
    }

    /** The layer's metro triggers. */
    method Fire()
      requires Valid()
      modifies this, counter
      ensures Valid()
      ensures State() == Trigger(callback, values, counter.lo, counter.hi, ticks, old(State()))
    {
      if running {
        if ticks {
          counter.Tick();
        }
        var r := Respond(callback, values, counter.out);
        running := r.1;
        log := log + r.0;
      }
    }
  }

  /** A layer over a counter of its own, `Counter(min=lo, max=hi)`. */
  method NewLayer(callback: Callback, values: seq<real>, lo: int, hi: int) returns (layer: Layer)
    ensures fresh(layer) && fresh(layer.counter) && layer.Valid()
    ensures layer.callback == callback && layer.values == values && layer.ticks
    ensures layer.State() == LayerState(lo, lo, true, [])
    ensures layer.counter.lo == lo && layer.counter.hi == hi
  {
    var counter := new Counter(lo, hi);
    layer := new Layer(callback, values, counter, true);
  }

  /** `taetest.py` and `nkonline.py`: the gong stops everything at the last
      RR interval (raising in `nkonline.py`), the chime stops its metro at
      the last R amplitude; each counts over the whole list. */
  method HaltingLayers(rr: seq<real>, peaks: seq<real>, raises: bool) returns (gong: Layer, chime: Layer)
    ensures fresh(gong) && fresh(gong.counter) && fresh(chime) && fresh(chime.counter)
    ensures gong.counter != chime.counter && gong.Valid() && chime.Valid()
    ensures gong.callback == HaltInterval(raises) && gong.values == rr && gong.ticks
    ensures gong.counter.lo == 0 && gong.counter.hi == |rr| && gong.State() == Fires(HaltInterval(raises), rr, 0, |rr|, 0)
    ensures chime.callback == HaltAmplitude && chime.values == peaks && chime.ticks
    ensures chime.counter.lo == 0 && chime.counter.hi == |peaks| && chime.State() == Fires(HaltAmplitude, peaks, 0, |peaks|, 0)
  {
    gong := NewLayer(HaltInterval(raises), rr, 0, |rr|);
    chime := NewLayer(HaltAmplitude, peaks, 0, |peaks|);
  }

  /** `3.0melodygeneration_og.py`: a wrap-around gong over the RR values
      plus 3.5 s with the default counter, and chime and bowl layers
      playing percentages whose counters stop one short of their lists. */
  method SeparateLayers(rr: seq<real>, r: seq<real>, s: seq<real>) returns (gong: Layer, chime: Layer, bowl: Layer)
    ensures fresh(gong) && fresh(gong.counter) && fresh(chime) && fresh(chime.counter) && fresh(bowl) && fresh(bowl.counter)
    ensures gong.counter != chime.counter && chime.counter != bowl.counter && gong.counter != bowl.counter
    ensures gong.Valid() && chime.Valid() && bowl.Valid()
    ensures gong.callback == WrapInterval(true) && gong.values == GongIntervals(rr) && gong.ticks
    ensures gong.counter.lo == 0 && gong.counter.hi == 100 && gong.State() == LayerState(0, 0, true, [])
    ensures chime.callback == Amplitude(true, true) && chime.values == r && chime.ticks
    ensures chime.counter.lo == 0 && chime.counter.hi == |r| - 1 && chime.State() == LayerState(0, 0, true, [])
    ensures bowl.callback == Amplitude(true, true) && bowl.values == s && bowl.ticks
    ensures bowl.counter.lo == 0 && bowl.counter.hi == |s| - 1 && bowl.State() == LayerState(0, 0, true, [])
  {
    gong := NewLayer(WrapInterval(true), GongIntervals(rr), 0, 100);
    chime := NewLayer(Amplitude(true, true), r, 0, |r| - 1);
    bowl := NewLayer(Amplitude(true, true), s, 0, |s| - 1);
  }

  /** `offline.py`: the wrap-around gong with the default counter and a
      chime playing raw amplitudes over a counter one short of its list. */
  method OfflineLayers(rr: seq<real>, r: seq<real>) returns (gong: Layer, chime: Layer)
    ensures fresh(gong) && fresh(gong.counter) && fresh(chime) && fresh(chime.counter)
    ensures gong.counter != chime.counter && gong.Valid() && chime.Valid()
    ensures gong.callback == WrapInterval(true) && gong.values == GongIntervals(rr) && gong.ticks
    ensures gong.counter.lo == 0 && gong.counter.hi == 100 && gong.State() == LayerState(0, 0, true, [])
    ensures chime.callback == Amplitude(false, true) && chime.values == r && chime.ticks
    ensures chime.counter.lo == 0 && chime.counter.hi == |r| - 1 && chime.State() == LayerState(0, 0, true, [])
  {
    gong := NewLayer(WrapInterval(true), GongIntervals(rr), 0, 100);
    chime := NewLayer(Amplitude(false, true), r, 0, |r| - 1);
  }

  /** `1.0melodygeneration_og.py`: `beat_count` is rebound at module level
      by each section, so when the gong callback runs it reads the bowl's
      counter, which only the bowl's metro drives.  The chime has no layer:
      the bowl section rebinds `trig_update_amplitude`, the only name
      holding the chime's `TrigFunc`, so that callback is dropped before
      anything plays. */
  method SharedCounterLayers(rr: seq<real>, s: seq<real>) returns (gong: Layer, bowl: Layer)
    ensures fresh(gong) && fresh(bowl) && fresh(bowl.counter)
    ensures gong.counter == bowl.counter && !gong.ticks && bowl.ticks
    ensures bowl.Valid() && bowl.counter.lo == 0 && bowl.counter.hi == |s| - 1
    ensures gong.callback == WrapInterval(true) && gong.values == GongIntervals(rr)
    ensures bowl.callback == Amplitude(false, true) && bowl.values == s
    ensures bowl.State() == LayerState(0, 0, true, []) && gong.running && gong.log == []
  {
    var counter := new Counter(0, |s| - 1);
    bowl := new Layer(Amplitude(false, true), s, counter, true);
    gong := new Layer(WrapInterval(true), GongIntervals(rr), counter, false);
  }

  /** `test_components/melodygeneration.py`: the chime section rebinds
      `beat_count`, so the gong callback reads the chime's counter. */
  method GongOnChimeCounter(rr: seq<real>, r: seq<real>) returns (gong: Layer, chime: Layer)
    ensures fresh(gong) && fresh(chime) && fresh(chime.counter)
    ensures gong.counter == chime.counter && !gong.ticks && chime.ticks
    ensures chime.Valid() && chime.counter.lo == 0 && chime.counter.hi == |r| - 1
    ensures gong.callback == WrapInterval(true) && gong.values == GongIntervals(rr)
    ensures chime.callback == Amplitude(false, false) && chime.values == r
    ensures chime.State() == LayerState(0, 0, true, []) && gong.running && gong.log == []
  {
    var counter := new Counter(0, |r| - 1);
    chime := new Layer(Amplitude(false, false), r, counter, true);
    gong := new Layer(WrapInterval(true), GongIntervals(rr), counter, false);
  }

  /** A layer reading a counter it does not drive sees only the values that
      counter outputs and leaves the counter alone: the gong reading the
      bowl counter of `1.0melodygeneration_og.py`, or the chime counter of
      `test_components/melodygeneration.py`, stays in range whatever the
      interleaving of the two metros. */
  lemma BorrowedCounterInRange(cb: Callback, values: seq<real>, hi: int, s: LayerState)
    requires 0 < hi && 0 <= s.next < hi && 0 <= s.out < hi
    requires if cb.WrapInterval? then |values| > 0 else hi <= |values|
    ensures Fault !in Trigger(cb, values, 0, hi, false, s).log[|s.log|..]
    ensures Trigger(cb, values, 0, hi, false, s).next == s.next
  {
  }
}
