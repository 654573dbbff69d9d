/**
 * The data model of src/lib.rs: notes, keys, key generators, the frequency lookup table,
 * and the validity check shared by times and frequencies.
 */
module Sequencer {
  import opened Wrappers
  import opened Float64
  import opened Errors
  import opened Pcm

  /** One sounding event of a sequence (lib.rs revision: `frequency` is a lookup-table id). */
  datatype Note = Note(
    startAt: real,
    endAt: real,
    duration: real,
    frequency: nat,
    onVelocity: real,
    offVelocity: real,
    instrumentId: nat)

  /** A loop region of a sequence; carried but never read. */
  datatype LoopInfo = LoopInfo(loopStart: real, loopEnd: real)

  /** A generated sound for one frequency of an instrument. */
  datatype Key = Key(audio: PCM, frequency: real)

  /** A key generator capability: the frequency in Hz and the PCM parameters give a key. */
  datatype KeyGenerator = KeyGenerator(keyGen: (real, PCMParameters) -> Key)

  /** `is_valid_time_frequency`: normal and strictly positive. */
  predicate IsValidTimeFrequency(x: F64): (valid: bool)
    ensures valid <==> x.Finite? && MIN_POSITIVE <= x.value <= MAX
  {
    IsNormal(x) && IsPositive(x)
  }

  /** `check_valid_time_frequency`: passes on a valid value, else reports that very value. */
  function CheckValidTimeFrequency(x: F64): (r: Outcome<SequencerError>)
    ensures r.Pass? <==> x.Finite? && MIN_POSITIVE <= x.value <= MAX
    ensures r.Fail? ==> r.error == ImpossibleTimeOrFrequency(x)
  {
    if !IsValidTimeFrequency(x) then Fail(ImpossibleTimeOrFrequency(x)) else Pass
  }

  /** Zero, NaN and the infinities are never usable as a time or a frequency. */
  lemma ZeroNaNInfinityInvalid(x: F64)
    requires x == Finite(0.0) || x.NaN? || x.Infinity?
    ensures CheckValidTimeFrequency(x) == Fail(ImpossibleTimeOrFrequency(x))
  {
  }

  /** Frequency id to Hz. */
  datatype FrequencyLookupTable = FrequencyLookupTable(lut: map<nat, F64>)
  {
    /** The stored value of `id`, checked at read time. */
    function Get(id: nat): (r: Result<real, SequencerError>)
      ensures id !in lut ==> r == Err(NoFrequencyForID(id))
      ensures id in lut && !IsValidTimeFrequency(lut[id]) ==> r == Err(ImpossibleTimeOrFrequency(lut[id]))
      ensures r.Ok? <==> id in lut && IsValidTimeFrequency(lut[id])
      ensures r.Ok? ==> lut[id] == Finite(r.value) && r.value > 0.0
    {
      if id in lut then
        match CheckValidTimeFrequency(lut[id])
        case Fail(e) => Err(e)
        case Pass => Ok(lut[id].value)
      else
        Err(NoFrequencyForID(id))
    }
  }
}
