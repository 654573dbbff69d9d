/** Minimal declarations of the external pcm crate's types, as far as the sequencer uses them. */
module Pcm {
  import opened Wrappers

  /** A sample; `Float` is the only representation the sequencer can generate. */
  datatype Sample = Float(value: real) | Other(raw: int)

  /** Sample rate in Hz, channel count, and a sample whose variant names the representation. */
  datatype PCMParameters = PCMParameters(sampleRate: nat, nbChannels: nat, sampleType: Sample)

  /** One time slice: one sample per channel. */
  datatype Frame = Frame(samples: seq<Sample>)

  /** Loop points carried by a PCM buffer (never read by the sequencer). */
  datatype PcmLoopInfo = PcmLoopInfo(loopStart: nat, loopEnd: nat)

  datatype PCM = PCM(parameters: PCMParameters, loopInfo: Option<PcmLoopInfo>, frames: seq<Frame>)
}
