/** The crate's error enum, and the panics that the model turns into outcomes. */
module Errors {
  import opened Float64

  /** The error of the external pcm crate; its content is not part of this model. */
  datatype PcmError = PcmError(code: nat)

  /** `SequencerError`; the Display and description strings are not modelled. */
  datatype SequencerError =
    | PCMError(cause: PcmError)
    | NoDefaultKeyGiven
    | ImpossibleTimeOrFrequency(value: F64)
    | NoFrequencyForID(id: nat)
    | NoInstrumentForID(id: nat)

  /** A panic of the Rust code, reported instead of aborting. */
  datatype Panic =
    | IndexOutOfBounds(index: nat, len: nat)    // `Vec::remove` past the end
    | Unimplemented                             // `unimplemented!()`
    | NoFrequencyBuilder                        // a builder-only call on a helper made with a ready table
    | InstrumentNeverStarted(instrumentId: nat) // a note-off for an instrument never started

  /** How a fallible operation that may also panic ends badly. */
  datatype Failure = Error(error: SequencerError) | Panicked(panic: Panic)
}
