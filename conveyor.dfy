/** The frame conveyor and the parameter channel, as functions on values:
    one audio cycle (`Cycle`) and one pass of the control loop
    (`ApplyParams`). The class in module Client is proved to compute them. */
module Conveyor {
  import opened Latency
  import opened Engine

  /** The integer fields shared by the audio callback and the control loop. */
  datatype SharedData = SharedData(
    delayFrames: nat,
    pending: int,
    pitch: real,
    tier: Tier,
    formantPref: int)

  /** The shared fields together with the engine they point to. */
  datatype Sys = Sys(data: SharedData, engine: EngineState)

  /** How a cycle ends: output filled, output withheld, or the fatal exit. */
  datatype Outcome = Drained | Withheld | Fatal(status: int)

  datatype Step = Step(sys: Sys, outcome: Outcome)

  /** Exit status of the fatal path when the engine reports -1. */
  const FatalStatus: int := 2

  /** The engine's fault report. */
  const EngineFault: int := -1

  /** Start-up state: the shared fields' initialisers and a fresh engine. */
  function Initial(): Sys
  {
    Sys(SharedData(0, 0, 0.0, 0, -1), Fresh())
  }

  /** The delay target matches the tier, and the pending counter is exactly
      the number of samples pushed and not yet retrieved since the last reset. */
  predicate Inv(s: Sys)
  {
    s.data.delayFrames == DelayFrames(s.data.tier)
    && s.data.pending == s.engine.pushed - s.engine.retrieved
  }

  /** First half of a cycle: push `nframes` samples and count them pending. */
  function Fill(s: Sys, nframes: nat, nowAvailable: int): (r: Sys)
    ensures r.data.pending == s.data.pending + nframes
    ensures r.engine.pushed == s.engine.pushed + nframes
    ensures r.engine.avail == nowAvailable
    ensures r.engine.retrieved == s.engine.retrieved
    ensures r.data.(pending := s.data.pending) == s.data
    ensures r.engine.(avail := s.engine.avail, pushed := s.engine.pushed) == s.engine
  {
    Sys(s.data.(pending := s.data.pending + nframes), Pushed(s.engine, nframes, nowAvailable))
  }

  /** One audio cycle of `nframes` samples, after which the engine reports
      `nowAvailable` ready samples. */
  function Cycle(s: Sys, nframes: nat, nowAvailable: int): (r: Step)
    // only the exact value -1 is the fault; no retrieval happens then
    ensures r.outcome == Fatal(FatalStatus) <==> nowAvailable == EngineFault
    ensures r.outcome.Fatal? <==> nowAvailable == EngineFault
    ensures r.outcome.Fatal? ==> r.sys == Fill(s, nframes, nowAvailable)
    // the gate: drain iff the engine holds the cycle plus the delay target
    ensures r.outcome == Drained <==> nowAvailable != EngineFault && nframes + s.data.delayFrames <= nowAvailable
    ensures r.outcome == Withheld <==> nowAvailable != EngineFault && nowAvailable < nframes + s.data.delayFrames
    ensures r.outcome == Drained ==>
              nframes <= nowAvailable
              && r.sys.engine.retrieved == s.engine.retrieved + nframes
              && r.sys.engine.avail == nowAvailable - nframes
              && r.sys.data.pending == s.data.pending
    ensures r.outcome != Drained ==>
              r.sys.engine.retrieved == s.engine.retrieved
              && r.sys.engine.avail == nowAvailable
              && r.sys.data.pending == s.data.pending + nframes
    // every cycle pushes; nothing but the counter and the engine's buffer changes
    ensures r.sys.engine.pushed == s.engine.pushed + nframes
    ensures r.sys.data.(pending := s.data.pending) == s.data
    ensures r.sys.engine.(avail := s.engine.avail, pushed := s.engine.pushed, retrieved := s.engine.retrieved) == s.engine
    ensures Inv(s) ==> Inv(r.sys)
    // a cycle never takes the counter below where it started
    ensures r.sys.data.pending >= s.data.pending
    ensures s.engine.retrieved <= s.engine.pushed ==> r.sys.engine.retrieved <= r.sys.engine.pushed
  {
    var f := Fill(s, nframes, nowAvailable);
    if f.engine.avail == EngineFault then
      Step(f, Fatal(FatalStatus))
    else if nframes + f.data.delayFrames <= f.engine.avail then
      Step(Sys(f.data.(pending := f.data.pending - nframes), Retrieved(f.engine, nframes)), Drained)
    else
      Step(f, Withheld)
  }

  /** The pitch block: act only on a changed slider value. */
  function ApplyPitch(s: Sys, pitchReq: real): (r: Sys)
    ensures r.data == s.data.(pitch := pitchReq)
    ensures pitchReq != s.data.pitch ==> r.engine == PitchSet(s.engine, pitchReq)
    ensures pitchReq == s.data.pitch ==> r == s
  {
    if s.data.pitch != pitchReq then
      Sys(s.data.(pitch := pitchReq), PitchSet(s.engine, pitchReq))
    else
      s
  }

  /** The formant block: act only on a changed choice; 0 selects Preserved,
      1 selects Shifted, any other value is stored without calling the engine. */
  function ApplyFormant(s: Sys, formantReq: int): (r: Sys)
    ensures r.data == s.data.(formantPref := formantReq)
    ensures formantReq != s.data.formantPref && formantReq == 0 ==> r.engine == FormantSet(s.engine, Preserved)
    ensures formantReq != s.data.formantPref && formantReq == 1 ==> r.engine == FormantSet(s.engine, Shifted)
    ensures formantReq != 0 && formantReq != 1 ==> r.engine == s.engine
    ensures formantReq == s.data.formantPref ==> r == s
  {
    if s.data.formantPref != formantReq then
      var d := s.data.(formantPref := formantReq);
      match formantReq
      case 0 => Sys(d, FormantSet(s.engine, Preserved))
      case 1 => Sys(d, FormantSet(s.engine, Shifted))
      case _ => Sys(d, s.engine)
    else
      s
  }

  /** The delay block: a changed tier re-derives the target, zeroes the
      counter and resets the engine, all in one step. */
  function ApplyTier(s: Sys, tierReq: Tier): (r: Sys)
    ensures r.data.tier == tierReq && r.data.pitch == s.data.pitch && r.data.formantPref == s.data.formantPref
    ensures tierReq != s.data.tier ==>
              r.data.delayFrames == DelayFrames(tierReq)
              && r.data.pending == 0
              && r.engine == Cleared(s.engine)
    ensures tierReq == s.data.tier ==> r == s
    ensures Inv(s) ==> Inv(r)
  {
    if s.data.tier != tierReq then
      Sys(s.data.(tier := tierReq, delayFrames := DelayFrames(tierReq), pending := 0), Cleared(s.engine))
    else
      s
  }

  /** One pass of the control loop: pitch, then formant, then delay tier. */
  function ApplyParams(s: Sys, pitchReq: real, formantReq: int, tierReq: Tier): (r: Sys)
    ensures r.data.pitch == pitchReq && r.data.formantPref == formantReq && r.data.tier == tierReq
    // a tier change resets; an unchanged tier leaves the counter and the buffer alone
    ensures tierReq != s.data.tier ==>
              r.data.delayFrames == DelayFrames(tierReq) && r.data.pending == 0
              && r.engine.avail == 0 && r.engine.pushed == 0 && r.engine.retrieved == 0
              && r.engine.resets == s.engine.resets + 1
    ensures tierReq == s.data.tier ==>
              r.data.delayFrames == s.data.delayFrames && r.data.pending == s.data.pending
              && r.engine.avail == s.engine.avail && r.engine.pushed == s.engine.pushed
              && r.engine.retrieved == s.engine.retrieved && r.engine.resets == s.engine.resets
    // setters are called once per changed value the engine understands
    ensures r.engine.setterCalls == s.engine.setterCalls
              + (if pitchReq != s.data.pitch then 1 else 0)
              + (if formantReq != s.data.formantPref && (formantReq == 0 || formantReq == 1) then 1 else 0)
    ensures r.engine.pitchFrom == if pitchReq != s.data.pitch then Some(pitchReq) else s.engine.pitchFrom
    ensures r.engine.formant ==
              if formantReq != s.data.formantPref && formantReq == 0 then Some(Preserved)
              else if formantReq != s.data.formantPref && formantReq == 1 then Some(Shifted)
              else s.engine.formant
    // re-applying the last-applied values is a no-op
    ensures pitchReq == s.data.pitch && formantReq == s.data.formantPref && tierReq == s.data.tier ==> r == s
    ensures Inv(s) ==> Inv(r)
  {
    ApplyTier(ApplyFormant(ApplyPitch(s, pitchReq), formantReq), tierReq)
  }
}
