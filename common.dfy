/** The optional value used wherever the Python code returns `None`,
    raises on a missing element, or has nothing to hand on. */
module Options {

  datatype Option<+T> = None | Some(value: T)

}

/** Frames as the sensor client puts them on the ECG and HR queues:
    `('ECG', timestamp, samples)`, `('HR', timestamp, rr_data, energy)`, and the
    sentinel `('QUIT', None, None, None)` pushed on disconnect or user quit. */
module Frames {

  /** The label of the sentinel frame. */
  const Quit: string := "QUIT"

  /** A queue item: its label, its timestamp in nanoseconds, and its numeric
      payload (ECG samples, or the heart-rate tuple). */
  datatype Frame = Frame(tag: string, timestamp: int, payload: seq<real>)

  predicate IsQuit(f: Frame) {
    f.tag == Quit
  }
}
