/** Failure-carrying results shared by the modules of this model. */
module Wrappers {

  /** A value that may be missing: an absent JSON field, or a text that does not parse. */
  datatype Option<+T> = None | Some(value: T)

  /** The outcome of an operation that can raise: `Ok` carries the value, `Err` the reason. */
  datatype Result<+T, +E> = Ok(value: T) | Err(error: E)

  /** Probe identifiers, shared by the topology producers and the viewer. */
  type ProbeId = int
}
