/** Duration to note bucketing (`mapping`) and melody synthesis
    (`playQRS`, `play_melody`).  A calibration lists eight closed upper bin
    edges, what happens above the last edge (a fixed fallback note, or the
    value is dropped) and a divisor applied to each value first. */
module NoteMapping {
  import opened Options

  /** What `mapping` does with a value above the last edge. */
  datatype Overflow = Fallback(index: nat) | Drop

  datatype Calibration = Calibration(edges: seq<real>, overflow: Overflow, divisor: real)

  /** proj/taetest.py, proj/nkonline.py, proj/db_tests/3.0melodygeneration_og.py:
      eight 0.125-wide bins, `notes[4]` above 1. */
  const Wide: Calibration := Calibration([0.125, 0.25, 0.375, 0.5, 0.625, 0.75, 0.875, 1.0], Fallback(4), 1.0)

  /** proj/db_tests/1.0melodygeneration_og.py, test_components/melodygeneration.py,
      test/s_qrs.py: edges at multiples of 0.011875 up to 0.083125, a last
      edge at 0.1, values above it dropped. */
  const Narrow: Calibration :=
    Calibration([0.011875, 0.02375, 0.035625, 0.0475, 0.059375, 0.07125, 0.083125, 0.1], Drop, 1.0)

  /** test/offline.py: the narrow bins after dividing by 1000. */
  const NarrowMilli: Calibration := Narrow.(divisor := 1000.0)

  /** The C major scale every caller passes as `notes`. */
  const Scale: seq<nat> := [60, 62, 64, 65, 67, 69, 71, 72]

  predicate Ascending(edges: seq<real>) {
    forall i, j :: 0 <= i < j < |edges| ==> edges[i] < edges[j]
  }

  predicate WellFormed(c: Calibration) {
    |c.edges| == 8 && Ascending(c.edges) && c.divisor > 0.0
    && (c.overflow.Fallback? ==> c.overflow.index < 8)
  }

  /** The first edge at index `k` or later that is not below `v`. */
  function FirstEdgeAtLeast(edges: seq<real>, v: real, k: nat): (b: Option<nat>)
    requires k <= |edges|
    ensures b.Some? ==> k <= b.value < |edges| && v <= edges[b.value]
    ensures b.Some? ==> forall j :: k <= j < b.value ==> edges[j] < v
    ensures b.None? ==> forall j :: k <= j < |edges| ==> edges[j] < v
    decreases |edges| - k
  {
    if k == |edges| then None
    else if v <= edges[k] then Some(k)
    else FirstEdgeAtLeast(edges, v, k + 1)
  }

  /** The bin of an already divided value, or None when it is dropped. */
  function Bin(c: Calibration, v: real): (b: Option<nat>)
    requires WellFormed(c)
    ensures b.Some? ==> b.value < 8
  {
    match FirstEdgeAtLeast(c.edges, v, 0)
    case Some(k) => Some(k)
    case None => if c.overflow.Fallback? then Some(c.overflow.index) else None
  }

  /** Bin `k` is `(edges[k-1], edges[k]]`, and bin 0 takes everything up to
      `edges[0]`: closed on the upper edge, open on the lower one. */
  lemma BinIff(c: Calibration, v: real, k: nat)
    requires WellFormed(c) && k < 8
    ensures FirstEdgeAtLeast(c.edges, v, 0) == Some(k) <==> v <= c.edges[k] && (k == 0 || c.edges[k - 1] < v)
  {
  }

  /** Above the last edge a value takes the fallback note or is dropped. */
  lemma BinAboveLastEdge(c: Calibration, v: real)
    requires WellFormed(c) && v > c.edges[7]
    ensures Bin(c, v) == if c.overflow.Fallback? then Some(c.overflow.index) else None
  {
  }

  /** Within the edges, a larger value never falls in a lower bin. */
  lemma BinMonotone(c: Calibration, v: real, w: real)
    requires WellFormed(c) && v <= w <= c.edges[7]
    ensures FirstEdgeAtLeast(c.edges, v, 0).Some? && FirstEdgeAtLeast(c.edges, w, 0).Some?
    ensures FirstEdgeAtLeast(c.edges, v, 0).value <= FirstEdgeAtLeast(c.edges, w, 0).value
  {
  }

  /** The note for one value, or None when it is dropped. */
  function NoteFor(c: Calibration, notes: seq<nat>, item: real): (n: Option<nat>)
    requires WellFormed(c) && |notes| >= 8
    ensures n.Some? ==> n.value in notes[..8]
  {
    match Bin(c, item / c.divisor)
    case None => None
    case Some(k) => Some(notes[k])
  }

  /** The wide `if`/`elif` chain as written in proj/taetest.py. */
  function WideNoteAsWritten(notes: seq<nat>, item: real): nat
    requires |notes| >= 8
  {
    if item <= 0.125 then notes[0]
    else if 0.125 < item <= 0.25 then notes[1]
    else if 0.25 < item <= 0.375 then notes[2]
    else if 0.375 < item <= 0.5 then notes[3]
    else if 0.5 < item <= 0.625 then notes[4]
    else if 0.625 < item <= 0.75 then notes[5]
    else if 0.75 < item <= 0.875 then notes[6]
    else if 0.875 < item <= 1.0 then notes[7]
    else notes[4]
  }

  /** The narrow `if`/`elif` chain as written in
      proj/db_tests/1.0melodygeneration_og.py; None is the `pass` branch. */
  function NarrowNoteAsWritten(notes: seq<nat>, item: real): Option<nat>
    requires |notes| >= 8
  {
    if item <= 0.011875 then Some(notes[0])
    else if item <= 0.02375 && item > 0.011875 then Some(notes[1])
    else if item <= 0.035625 && item > 0.02375 then Some(notes[2])
    else if item <= 0.0475 && item > 0.035625 then Some(notes[3])
    else if item <= 0.059375 && item > 0.0475 then Some(notes[4])
    else if item <= 0.07125 && item > 0.059375 then Some(notes[5])
    else if item <= 0.083125 && item > 0.07125 then Some(notes[6])
    else if item <= 0.1 && item > 0.083125 then Some(notes[7])
    else None
  }

  /** The wide chain is the wide calibration. */
  lemma WideChainIsCalibration(notes: seq<nat>, item: real)
    requires |notes| >= 8
    ensures NoteFor(Wide, notes, item) == Some(WideNoteAsWritten(notes, item))
  {
  }

  /** The narrow chain is the narrow calibration, and test/offline.py's
      chain on `item/1000` is the milli calibration. */
  lemma NarrowChainIsCalibration(notes: seq<nat>, item: real)
    requires |notes| >= 8
    ensures NoteFor(Narrow, notes, item) == NarrowNoteAsWritten(notes, item)
    ensures NoteFor(NarrowMilli, notes, item) == NarrowNoteAsWritten(notes, item / 1000.0)
  {
  }

  /** The wide edges are the multiples of 1/8. */
  lemma WideEdges()
    ensures WellFormed(Wide)
    ensures forall k :: 0 <= k < 8 ==> Wide.edges[k] == (k + 1) as real / 8.0
  {
  }

  /** The narrow edges below the last are the multiples of 0.011875, and the
      last bin `(0.083125, 0.1]` is wider than the others. */
  lemma NarrowEdges()
    ensures WellFormed(Narrow) && WellFormed(NarrowMilli)
    ensures forall k :: 0 <= k < 7 ==> Narrow.edges[k] == 0.011875 * (k + 1) as real
    ensures Narrow.edges[7] - Narrow.edges[6] == 0.016875 > 0.011875
  {
  }

  /** A duration of 0.5 is the upper edge of bin 3, so it plays `notes[3]`,
      F4 on the default scale; values above 1 play `notes[4]`. */
  lemma WideExamples(v: real)
    requires v > 1.0
    ensures NoteFor(Wide, Scale, 0.5) == Some(65)
    ensures NoteFor(Wide, Scale, v) == Some(Scale[4])
  {
    WideEdges();
    BinIff(Wide, 0.5, 3);
    BinAboveLastEdge(Wide, v);
  }

  /** `mapping`: one note per kept value, in input order. */
  function MapSpec(c: Calibration, notes: seq<nat>, items: seq<real>): (r: seq<nat>)
    requires WellFormed(c) && |notes| >= 8
    ensures |r| <= |items|
  {
    if items == [] then []
    else
      MapSpec(c, notes, items[..|items| - 1])
      + match NoteFor(c, notes, items[|items| - 1]) { case None => [] case Some(n) => [n] }
  }

  /** `mapping`'s loop over the values. */
  method Mapping(c: Calibration, notes: seq<nat>, items: seq<real>) returns (events: seq<nat>)
    requires WellFormed(c) && |notes| >= 8
    ensures events == MapSpec(c, notes, items)
  {
    events := [];
    for i := 0 to |items|
      invariant events == MapSpec(c, notes, items[..i])
    {
      assert items[..i + 1][..i] == items[..i];
      var b := Bin(c, items[i] / c.divisor);
      if b.Some? {
        events := events + [notes[b.value]];
      }
    }
    assert items[..|items|] == items;
  }

  /** Mapping a concatenation maps each part in turn, so the order of the
      inputs is kept. */
  lemma {:induction false} MapAppend(c: Calibration, notes: seq<nat>, a: seq<real>, b: seq<real>)
    requires WellFormed(c) && |notes| >= 8
    ensures MapSpec(c, notes, a + b) == MapSpec(c, notes, a) + MapSpec(c, notes, b)
    decreases |b|
  {
    if b != [] {
      var init := b[..|b| - 1];
      MapAppend(c, notes, a, init);
      assert (a + b)[..|a + b| - 1] == a + init;
      assert (a + b)[|a + b| - 1] == b[|b| - 1];
    } else {
      assert a + b == a;
    }
  }

  /** Every emitted note is one of the eight notes; no more notes than
      values come out, and with a fallback exactly one per value, namely
      the note of that value. */
  lemma {:induction false} MapShape(c: Calibration, notes: seq<nat>, items: seq<real>)
    requires WellFormed(c) && |notes| >= 8
    ensures |MapSpec(c, notes, items)| <= |items|
    ensures forall n :: n in MapSpec(c, notes, items) ==> n in notes[..8]
    ensures c.overflow.Fallback? ==> |MapSpec(c, notes, items)| == |items|
    ensures c.overflow.Fallback? ==>
      forall i :: 0 <= i < |items| ==> i < |MapSpec(c, notes, items)| && Some(MapSpec(c, notes, items)[i]) == NoteFor(c, notes, items[i])
  {
    if items != [] {
      var init := items[..|items| - 1];
      MapShape(c, notes, init);
      if c.overflow.Fallback? {
        forall i | 0 <= i < |items|
          ensures Some(MapSpec(c, notes, items)[i]) == NoteFor(c, notes, items[i])
        {
          if i < |init| {
            assert items[i] == init[i];
          }
        }
      }
    }
  }

  /** With the drop policy, a value is lost exactly when, divided, it lies
      above the last edge. */
  lemma {:induction false} MapDropsOnlyAboveLastEdge(c: Calibration, notes: seq<nat>, items: seq<real>)
    requires WellFormed(c) && |notes| >= 8 && c.overflow.Drop?
    ensures |MapSpec(c, notes, items)| == |items| <==> forall i :: 0 <= i < |items| ==> items[i] / c.divisor <= c.edges[7]
  {
    MapShape(c, notes, items);
    if items != [] {
      var init := items[..|items| - 1];
      var last := items[|items| - 1];
      MapDropsOnlyAboveLastEdge(c, notes, init);
      MapShape(c, notes, init);
      if last / c.divisor > c.edges[7] {
        BinAboveLastEdge(c, last / c.divisor);
      } else {
        assert FirstEdgeAtLeast(c.edges, last / c.divisor, 0).Some?;
      }
      assert forall i :: 0 <= i < |init| ==> items[i] == init[i];
    }
  }

  /** proj/db_tests/1.0melodygeneration_og.py's input: the first 100
      recorded QRS intervals divided by 100. */
  function ScaledQrs(raw: seq<real>): (r: seq<real>)
    ensures |r| == if |raw| < 100 then |raw| else 100
    ensures forall i :: 0 <= i < |r| ==> r[i] == raw[i] / 100.0
  {
    var n := if |raw| < 100 then |raw| else 100;
    seq(n, i requires 0 <= i < n => raw[i] / 100.0)
  }

  /** Recorded intervals of at most 10 survive the narrow mapping. */
  lemma ScaledQrsKept(notes: seq<nat>, raw: seq<real>)
    requires |notes| >= 8
    requires forall i :: 0 <= i < |raw| ==> raw[i] <= 10.0
    ensures |MapSpec(Narrow, notes, ScaledQrs(raw))| == |ScaledQrs(raw)|
  {
    MapDropsOnlyAboveLastEdge(Narrow, notes, ScaledQrs(raw));
  }

  // ---------------------------------------------------------------------
  // Melody synthesis
  // ---------------------------------------------------------------------

  /** The oscillator frequency: the note number itself, or the MIDI note's
      equal-tempered frequency (`midiToHz`, not evaluated here). */
  datatype Freq = Hz(value: real) | MidiHz(note: nat)

  datatype Pitch = RawNote | EqualTempered

  /** A `Sine` oscillator. */
  datatype Osc = Osc(freq: Freq, mul: real)

  function FreqOf(note: nat, pitch: Pitch): Freq {
    match pitch
    case RawNote => Hz(note as real)
    case EqualTempered => MidiHz(note)
  }

  /** What `playQRS` / `play_melody` returns: the oscillator of the last
      event, or `prev` when there are no events (the previous global
      oscillator; None for the versions with a local `osc`, which raise). */
  function LastOsc(events: seq<nat>, pitch: Pitch, mul: real, prev: Option<Osc>): (o: Option<Osc>)
    ensures events != [] ==> o.Some? && o.value.mul == mul
    ensures events == [] ==> o == prev
  {
    if events == [] then prev else Some(Osc(FreqOf(events[|events| - 1], pitch), mul))
  }

  /** Only the last event matters: earlier events are overwritten. */
  lemma OnlyLastEventPlays(a: seq<nat>, b: seq<nat>, pitch: Pitch, mul: real, prev: Option<Osc>)
    requires b != []
    ensures LastOsc(a + b, pitch, mul, prev) == LastOsc(b, pitch, mul, None)
  {
  }

  /** With raw pitch the frequency in Hz is the note number: note 60 plays
      at 60 Hz. */
  lemma RawPitchIsNoteNumber(events: seq<nat>, mul: real)
    requires events != []
    ensures LastOsc(events, RawNote, mul, None) == Some(Osc(Hz(events[|events| - 1] as real), mul))
  {
  }

  /** The loop creating one oscillator per event. */
  method PlayMelody(events: seq<nat>, pitch: Pitch, mul: real, prev: Option<Osc>) returns (osc: Option<Osc>)
    ensures osc == LastOsc(events, pitch, mul, prev)
  {
    osc := prev;
    for i := 0 to |events|
      invariant osc == LastOsc(events[..i], pitch, mul, prev)
    {
      osc := Some(Osc(FreqOf(events[i], pitch), mul));
    }
    assert events[..|events|] == events;
  }
}
