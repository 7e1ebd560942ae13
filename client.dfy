/** The shared client state as the program keeps it: one object whose fields
    the audio callback and the control loop update in place, holding the
    stretcher it drives. */
module Client {
  import opened Latency
  import opened Engine
  import opened Conveyor

  class ClientState {
    const rb: Stretcher
    var delayFrames: nat
    var pending: int
    var pitch: real
    var tier: Tier
    var formantPref: int

    /** The value this object and its engine currently stand for. */
    function State(): Sys
      reads this, rb
    {
      Sys(SharedData(delayFrames, pending, pitch, tier, formantPref), rb.State())
    }

    /** Start-up: default field values and a newly built stretcher. */
    constructor ()
      ensures fresh(rb)
      ensures State() == Initial()
    {
      rb := new Stretcher();
      delayFrames, pending, pitch, tier, formantPref := 0, 0, 0.0, 0, -1;
    }

    /** The audio callback for one cycle of `nframes` samples; `nowAvailable`
        is what the engine reports after the push. */
    method Process(nframes: nat, nowAvailable: int) returns (outcome: Outcome)
      modifies this, rb
      ensures Step(State(), outcome) == Cycle(old(State()), nframes, nowAvailable)
    {
      rb.Process(nframes, nowAvailable);
      pending := pending + nframes;
      var avail := rb.Available();
      if avail == EngineFault {
        return Fatal(FatalStatus);
      }
      if nframes + delayFrames <= avail {
        var written := rb.Retrieve(nframes);
        pending := pending - written;
        outcome := Drained;
      } else {
        outcome := Withheld;
      }
    }

    /** One pass of the control loop with the values the controls hold. */
    method ApplyParams(pitchReq: real, formantReq: int, tierReq: Tier)
      modifies this, rb
      ensures State() == Conveyor.ApplyParams(old(State()), pitchReq, formantReq, tierReq)
    {
      if pitch != pitchReq {
        pitch := pitchReq;
        rb.SetPitchScale(pitch);
      }
      if formantPref != formantReq {
        formantPref := formantReq;
        if formantPref == 0 {
          rb.SetFormantOption(Preserved);
        } else if formantPref == 1 {
          rb.SetFormantOption(Shifted);
        }
      }
      if tier != tierReq {
        tier := tierReq;
        delayFrames := tier * (SampleRate / 2);
        pending := 0;
        rb.Reset();
      }
    }
  }
}
