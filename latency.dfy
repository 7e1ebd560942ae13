/** The latency policy: how a delay tier chosen on the control surface becomes
    the number of samples the conveyor buffers before it starts to drain. */
module Latency {

  /** Sample rate the stretcher is constructed with. */
  const SampleRate: nat := 44100

  /** Samples in one tier step: half a second at the sample rate. */
  const TierStep: nat := SampleRate / 2

  /** The five delay choices the control surface offers. */
  type Tier = t: int | 0 <= t <= 4

  /** The delay, in milliseconds, printed on each tier's radio button. */
  function TierMs(t: Tier): nat
  {
    [0, 500, 1000, 1500, 2000][t]
  }

  /** Target buffering depth of tier `t`, in samples. */
  function DelayFrames(t: Tier): (r: nat)
    ensures r * 1000 == TierMs(t) * SampleRate
    ensures r % TierStep == 0 && r / TierStep == t
  {
    t * (SampleRate / 2)
  }

  /** A higher tier always asks for strictly more buffering. */
  lemma DelayFramesIncreasing(t: Tier, u: Tier)
    requires t < u
    ensures DelayFrames(t) + TierStep <= DelayFrames(u)
  {
  }
}
