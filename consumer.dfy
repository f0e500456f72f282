/** The consumer task of the live pipelines (`run_consumer_task`).  The two
    asyncio queues become two input sequences: each iteration takes one ECG
    frame and one HR frame, leaves the loop when the ECG frame is the
    sentinel, and otherwise appends both frames to two open lists; when both
    lists hold ten frames they are handed to signal processing and cleared.
    When a queue runs dry the model stops where the task would wait. */
module Consumer {
  import opened Options
  import opened Frames

  /** Frames per channel in one batch. */
  const BatchSize: nat := 10

  /** What one batch hands to signal processing: all ten ECG frames and the
      HR frames that reach RR processing. */
  datatype Window = Window(ecg: seq<Frame>, hr: seq<Frame>)

  /** Number of frame pairs the loop appends before it leaves on an ECG
      sentinel or finds a queue empty. */
  function Accepted(ecgQueue: seq<Frame>, hrQueue: seq<Frame>): (n: nat)
    ensures n <= |ecgQueue| && n <= |hrQueue|
    ensures forall j :: 0 <= j < n ==> !IsQuit(ecgQueue[j])
    ensures n < |ecgQueue| && n < |hrQueue| ==> IsQuit(ecgQueue[n])
  {
    if |ecgQueue| == 0 || |hrQueue| == 0 || IsQuit(ecgQueue[0]) then 0
    else 1 + Accepted(ecgQueue[1..], hrQueue[1..])
  }

  /** Within the queues and up to the accepted count, a frame is the
      sentinel exactly at the accepted count. */
  lemma AcceptedStops(ecgQueue: seq<Frame>, hrQueue: seq<Frame>, a: nat)
    requires a < |ecgQueue| && a < |hrQueue| && a <= Accepted(ecgQueue, hrQueue)
    ensures IsQuit(ecgQueue[a]) <==> a == Accepted(ecgQueue, hrQueue)
  {
  }

  /** The loop saw the ECG sentinel (rather than waiting on an empty queue). */
  predicate QuitSeen(ecgQueue: seq<Frame>, hrQueue: seq<Frame>) {
    var n := Accepted(ecgQueue, hrQueue);
    n < |ecgQueue| && n < |hrQueue|
  }

  /** The `k`-th window a batcher passing `hrTake` HR frames releases,
      counting from 0, when nothing before it was a sentinel. */
  function WindowAt(ecgQueue: seq<Frame>, hrQueue: seq<Frame>, hrTake: nat, k: nat): (w: Window)
    requires hrTake <= BatchSize
    requires (k + 1) * BatchSize <= |ecgQueue| && (k + 1) * BatchSize <= |hrQueue|
    ensures |w.ecg| == BatchSize && |w.hr| == hrTake
  {
    Window(ecgQueue[k * BatchSize .. k * BatchSize + BatchSize], hrQueue[k * BatchSize .. k * BatchSize + hrTake])
  }

  /** The first `m` windows released from the two queues, in order. */
  function Batches(ecgQueue: seq<Frame>, hrQueue: seq<Frame>, hrTake: nat, m: nat): (ws: seq<Window>)
    requires hrTake <= BatchSize
    requires m * BatchSize <= |ecgQueue| && m * BatchSize <= |hrQueue|
    ensures |ws| == m
  {
    if m == 0 then []
    else Batches(ecgQueue, hrQueue, hrTake, m - 1) + [WindowAt(ecgQueue, hrQueue, hrTake, m - 1)]
  }

  /** The batching state of `run_consumer_task` in proj/taetest.py
      (`hrTake == 10`) and proj/nkonline.py (`hrTake == 5`, the HR slice
      `[:5]`). */
  class FrameBatcher {
    /** How many of the ten HR frames reach RR processing. */
    const hrTake: nat
    /** `ecg_frames_list` and `hr_frames_list`. */
    var ecgOpen: seq<Frame>
    var hrOpen: seq<Frame>
    /** Every window handed to signal processing so far, in order. */
    var released: seq<Window>
    /** The loop has left on the ECG sentinel. */
    var stopped: bool

    ghost predicate Valid()
      reads this
    {
      |ecgOpen| == |hrOpen| < BatchSize && hrTake <= BatchSize
    }

    constructor (hrTake: nat)
      requires hrTake <= BatchSize
      ensures Valid() && this.hrTake == hrTake
      ensures ecgOpen == [] && hrOpen == [] && released == [] && !stopped
    {
      this.hrTake := hrTake;
      ecgOpen, hrOpen, released, stopped := [], [], [], false;
    }

    /** One loop iteration, after both frames have been taken. */
    method Step(ecg: Frame, hr: Frame) returns (handed: Option<Window>)
      requires Valid() && !stopped
      modifies this
      ensures Valid()
      ensures stopped <==> IsQuit(ecg)
      ensures IsQuit(ecg) ==>
        handed == None && ecgOpen == old(ecgOpen) && hrOpen == old(hrOpen) && released == old(released)
      ensures !IsQuit(ecg) && |old(ecgOpen)| + 1 < BatchSize ==>
        handed == None && released == old(released)
        && ecgOpen == old(ecgOpen) + [ecg] && hrOpen == old(hrOpen) + [hr]
      ensures !IsQuit(ecg) && |old(ecgOpen)| + 1 == BatchSize ==>
        var w := Window(old(ecgOpen) + [ecg], (old(hrOpen) + [hr])[..hrTake]);
        handed == Some(w) && released == old(released) + [w] && ecgOpen == [] && hrOpen == []
    {
      handed := None;
      if IsQuit(ecg) {
        stopped := true;
        return;
      }
      ecgOpen := ecgOpen + [ecg];
      hrOpen := hrOpen + [hr];
      if |ecgOpen| >= BatchSize && |hrOpen| >= BatchSize {
        var w := Window(ecgOpen, hrOpen[..hrTake]);
        released := released + [w];
        handed := Some(w);
        ecgOpen := [];
        hrOpen := [];
      }
    }

    /** The whole `while True` loop over the two queues, from empty lists.
        Returns how many frames were taken from each queue. */
    method Run(ecgQueue: seq<Frame>, hrQueue: seq<Frame>) returns (taken: nat)
      requires Valid() && !stopped && ecgOpen == [] && hrOpen == [] && released == []
      modifies this
      ensures Valid()
      ensures stopped == QuitSeen(ecgQueue, hrQueue)
      ensures taken == Accepted(ecgQueue, hrQueue) + (if stopped then 1 else 0)
      ensures |released| * BatchSize + |ecgOpen| == Accepted(ecgQueue, hrQueue)
      ensures released == Batches(ecgQueue, hrQueue, hrTake, |released|)
      ensures ecgOpen == ecgQueue[|released| * BatchSize .. Accepted(ecgQueue, hrQueue)]
      ensures hrOpen == hrQueue[|released| * BatchSize .. Accepted(ecgQueue, hrQueue)]
    {
      ghost var n := Accepted(ecgQueue, hrQueue);
      ghost var a := 0;  // frame pairs appended so far
      var i := 0;
      while i < |ecgQueue| && i < |hrQueue| && !stopped
        invariant Valid()
        invariant i == if stopped then a + 1 else a
        invariant stopped ==> a == n && n < |ecgQueue| && n < |hrQueue|
        invariant a <= n
        invariant Appended(ecgQueue, hrQueue, hrTake, a, released, ecgOpen, hrOpen)
        decreases |ecgQueue| - i, if stopped then 0 else 1
      {
        ghost var ecgBefore, hrBefore, releasedBefore := ecgOpen, hrOpen, released;
        AcceptedStops(ecgQueue, hrQueue, a);
        var _ := Step(ecgQueue[i], hrQueue[i]);
        if !stopped {
          AppendedStep(ecgQueue, hrQueue, hrTake, a, releasedBefore, ecgBefore, hrBefore);
          a := a + 1;
        }
        i := i + 1;
      }
      taken := i;
    }
  }

  /** The state after appending the first `a` frame pairs: the released
      windows are the first ones of the queues, and the open lists hold
      the frames appended since the last release. */
  ghost predicate Appended(ecgQueue: seq<Frame>, hrQueue: seq<Frame>, hrTake: nat, a: nat,
                           released: seq<Window>, ecgOpen: seq<Frame>, hrOpen: seq<Frame>)
  {
    hrTake <= BatchSize && a <= |ecgQueue| && a <= |hrQueue|
    && |released| * BatchSize + |ecgOpen| == a && |hrOpen| == |ecgOpen|
    && released == Batches(ecgQueue, hrQueue, hrTake, |released|)
    && ecgOpen == ecgQueue[a - |ecgOpen| .. a] && hrOpen == hrQueue[a - |hrOpen| .. a]
  }

  /** Appending frame pair `a` keeps `Appended`, both when the lists stay
      open and when they fill up and are released. */
  lemma AppendedStep(ecgQueue: seq<Frame>, hrQueue: seq<Frame>, hrTake: nat, a: nat,
                     released: seq<Window>, ecgOpen: seq<Frame>, hrOpen: seq<Frame>)
    requires Appended(ecgQueue, hrQueue, hrTake, a, released, ecgOpen, hrOpen)
    requires a < |ecgQueue| && a < |hrQueue| && |ecgOpen| < BatchSize
    ensures |ecgOpen| + 1 < BatchSize ==>
      Appended(ecgQueue, hrQueue, hrTake, a + 1, released, ecgOpen + [ecgQueue[a]], hrOpen + [hrQueue[a]])
    ensures |ecgOpen| + 1 == BatchSize ==>
      Appended(ecgQueue, hrQueue, hrTake, a + 1,
               released + [Window(ecgOpen + [ecgQueue[a]], (hrOpen + [hrQueue[a]])[..hrTake])], [], [])
  {
    SliceSnoc(ecgQueue, ecgOpen, a);
    SliceSnoc(hrQueue, hrOpen, a);
    if |ecgOpen| + 1 == BatchSize {
      AppendedRelease(ecgQueue, hrQueue, hrTake, a, released, ecgOpen, hrOpen);
    }
  }

  lemma AppendedRelease(ecgQueue: seq<Frame>, hrQueue: seq<Frame>, hrTake: nat, a: nat,
                        released: seq<Window>, ecgOpen: seq<Frame>, hrOpen: seq<Frame>)
    requires Appended(ecgQueue, hrQueue, hrTake, a, released, ecgOpen, hrOpen)
    requires a < |ecgQueue| && a < |hrQueue| && |ecgOpen| + 1 == BatchSize
    requires ecgOpen + [ecgQueue[a]] == ecgQueue[a - |ecgOpen| .. a + 1]
    requires hrOpen + [hrQueue[a]] == hrQueue[a - |hrOpen| .. a + 1]
    ensures Appended(ecgQueue, hrQueue, hrTake, a + 1,
                     released + [Window(ecgOpen + [ecgQueue[a]], (hrOpen + [hrQueue[a]])[..hrTake])], [], [])
  {
    var m := |released|;
    assert a - |ecgOpen| == m * BatchSize && a + 1 == m * BatchSize + BatchSize;
    ReleaseExtends(ecgQueue, hrQueue, hrTake, m, ecgOpen + [ecgQueue[a]], hrOpen + [hrQueue[a]]);
  }

  /** An open list that is the slice of a queue ending at `a` grows into
      the slice ending at `a + 1`. */
  lemma SliceSnoc<T>(q: seq<T>, open: seq<T>, a: nat)
    requires a < |q| && |open| <= a && open == q[a - |open| .. a]
    ensures open + [q[a]] == q[a - |open| .. a + 1]
  {
  }

  /** Releasing the next ten frames of each queue extends the released
      windows by the next window. */
  lemma ReleaseExtends(ecgQueue: seq<Frame>, hrQueue: seq<Frame>, hrTake: nat, m: nat, ecg: seq<Frame>, hr: seq<Frame>)
    requires hrTake <= BatchSize
    requires m * BatchSize + BatchSize <= |ecgQueue| && m * BatchSize + BatchSize <= |hrQueue|
    requires ecg == ecgQueue[m * BatchSize .. m * BatchSize + BatchSize]
    requires hr == hrQueue[m * BatchSize .. m * BatchSize + BatchSize]
    ensures Batches(ecgQueue, hrQueue, hrTake, m) + [Window(ecg, hr[..hrTake])]
         == Batches(ecgQueue, hrQueue, hrTake, m + 1)
  {
    assert hr[..hrTake] == hrQueue[m * BatchSize .. m * BatchSize + hrTake];
  }

  /** Window `k` of the released sequence holds exactly the ten ECG frames
      received after the previous release, in arrival order, and the first
      `hrTake` HR frames of the same span. */
  lemma {:induction false} BatchesAt(ecgQueue: seq<Frame>, hrQueue: seq<Frame>, hrTake: nat, m: nat, k: nat)
    requires hrTake <= BatchSize
    requires m * BatchSize <= |ecgQueue| && m * BatchSize <= |hrQueue|
    requires k < m
    ensures Batches(ecgQueue, hrQueue, hrTake, m)[k].ecg == ecgQueue[k * BatchSize .. k * BatchSize + BatchSize]
    ensures Batches(ecgQueue, hrQueue, hrTake, m)[k].hr == hrQueue[k * BatchSize .. k * BatchSize + hrTake]
  {
    if k < m - 1 {
      BatchesAt(ecgQueue, hrQueue, hrTake, m - 1, k);
    }
  }

  /** No released window contains the sentinel, and a window's frames are
      the frames accepted in that span: concatenating the released ECG
      frames gives back every accepted ECG frame up to the last release. */
  lemma {:induction false} BatchesConcat(ecgQueue: seq<Frame>, hrQueue: seq<Frame>, hrTake: nat, m: nat)
    requires hrTake <= BatchSize
    requires m * BatchSize <= Accepted(ecgQueue, hrQueue)
    ensures EcgOf(Batches(ecgQueue, hrQueue, hrTake, m)) == ecgQueue[..m * BatchSize]
    ensures forall f :: f in EcgOf(Batches(ecgQueue, hrQueue, hrTake, m)) ==> !IsQuit(f)
  {
    if m > 0 {
      BatchesConcat(ecgQueue, hrQueue, hrTake, m - 1);
      var ws := Batches(ecgQueue, hrQueue, hrTake, m);
      assert ws[..m - 1] == Batches(ecgQueue, hrQueue, hrTake, m - 1);
      EcgOfSnoc(ws[..m - 1], ws[m - 1]);
      assert ws == ws[..m - 1] + [ws[m - 1]];
      assert ecgQueue[..m * BatchSize] == ecgQueue[..(m - 1) * BatchSize] + ecgQueue[(m - 1) * BatchSize .. m * BatchSize];
    }
    forall f | f in EcgOf(Batches(ecgQueue, hrQueue, hrTake, m)) ensures !IsQuit(f) {
      var j :| 0 <= j < m * BatchSize && ecgQueue[..m * BatchSize][j] == f;
    }
  }

  /** All ECG frames of a sequence of windows, in order. */
  function EcgOf(ws: seq<Window>): (fs: seq<Frame>)
  {
    if ws == [] then [] else ws[0].ecg + EcgOf(ws[1..])
  }

  lemma {:induction false} EcgOfSnoc(ws: seq<Window>, w: Window)
    ensures EcgOf(ws + [w]) == EcgOf(ws) + w.ecg
  {
    if ws == [] {
      assert [w][1..] == [];
    } else {
      assert (ws + [w])[1..] == ws[1..] + [w];
      EcgOfSnoc(ws[1..], w);
    }
  }

  /** `rr_signalprocessing` of proj/online.py: `data[2][1]`, the second
      element of the HR payload; `None` stands for the IndexError a shorter
      payload raises. */
  function SecondOfPayload(hr: Frame): (o: Option<real>)
    ensures o.Some? <==> |hr.payload| >= 2
    ensures o.Some? ==> o.value == hr.payload[1]
  {
    if |hr.payload| >= 2 then Some(hr.payload[1]) else None
  }

  /** Number of frame pairs the unbatched consumer handles before it leaves
      on the ECG sentinel, waits on an empty queue, or dies on a short HR
      payload. */
  function Handled(ecgQueue: seq<Frame>, hrQueue: seq<Frame>): (n: nat)
    ensures n <= Accepted(ecgQueue, hrQueue)
    ensures forall j :: 0 <= j < n ==> !IsQuit(ecgQueue[j]) && |hrQueue[j].payload| >= 2
    ensures n < Accepted(ecgQueue, hrQueue) ==> |hrQueue[n].payload| < 2
  {
    if |ecgQueue| == 0 || |hrQueue| == 0 || IsQuit(ecgQueue[0]) || |hrQueue[0].payload| < 2 then 0
    else 1 + Handled(ecgQueue[1..], hrQueue[1..])
  }

  /** The consumer of proj/online.py: every frame pair is processed on its
      own, with no batching; the ECG frame goes to ECG processing and the
      HR frame's second payload element is the RR value. */
  method RunUnbatched(ecgQueue: seq<Frame>, hrQueue: seq<Frame>) returns (handled: seq<(Frame, real)>, quit: bool, failed: bool)
    ensures |handled| == Handled(ecgQueue, hrQueue)
    ensures forall j :: 0 <= j < |handled| ==> handled[j] == (ecgQueue[j], hrQueue[j].payload[1])
    ensures quit <==> QuitSeen(ecgQueue, hrQueue) && |handled| == Accepted(ecgQueue, hrQueue)
    ensures failed <==> |handled| < Accepted(ecgQueue, hrQueue)
  {
    handled, quit, failed := [], false, false;
    var i := 0;
    while i < |ecgQueue| && i < |hrQueue|
      invariant i == |handled| <= Handled(ecgQueue, hrQueue)
      invariant forall j :: 0 <= j < i ==> handled[j] == (ecgQueue[j], hrQueue[j].payload[1])
    {
      var ecg, hr := ecgQueue[i], hrQueue[i];
      if IsQuit(ecg) {
        quit := true;
        break;
      }
      var rr := SecondOfPayload(hr);
      if rr.None? {
        failed := true;
        break;
      }
      handled := handled + [(ecg, rr.value)];
      i := i + 1;
    }
  }

  /** `push_out`: an item pair is handed to `melodyGeneration` (whose body
      is `pass`) only when the ECG item is non-empty and the RR item is
      positive; the result lists the positions handed on, in order. */
  method PushOut(ecgItems: seq<seq<real>>, rrItems: seq<real>) returns (generated: seq<nat>)
    ensures forall j :: j in generated <==> 0 <= j < |ecgItems| && j < |rrItems| && ecgItems[j] != [] && rrItems[j] > 0.0
    ensures forall a, b :: 0 <= a < b < |generated| ==> generated[a] < generated[b]
  {
    generated := [];
    var i := 0;
    while i < |ecgItems| && i < |rrItems|
      invariant forall j :: j in generated <==> 0 <= j < i && j < |ecgItems| && j < |rrItems| && ecgItems[j] != [] && rrItems[j] > 0.0
      invariant forall a, b :: 0 <= a < b < |generated| ==> generated[a] < generated[b]
      invariant forall a :: 0 <= a < |generated| ==> generated[a] < i
    {
      if ecgItems[i] != [] && rrItems[i] > 0.0 {
        generated := generated + [i];
      }
      i := i + 1;
    }
  }
}
