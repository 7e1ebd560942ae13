/** The pitch/time-stretching engine, seen only through the calls the conveyor
    makes on it. Its DSP is not modelled: after a push the engine decides how
    many output samples it has ready, and that decision is an input here. */
module Engine {

  datatype Option<T> = None | Some(value: T)

  /** The two formant policies the control surface can select. */
  datatype FormantOption = Preserved | Shifted

  /** Observable state of the engine.
      `avail`       what available() reports;
      `pushed`      samples pushed since the last reset;
      `retrieved`   samples retrieved since the last reset;
      `resets`      calls to reset() so far;
      `setterCalls` calls to the pitch and formant setters so far;
      `pitchFrom`   the slider value the last pitch scale was derived from;
      `formant`     the last formant option set. */
  datatype EngineState = EngineState(
    avail: int,
    pushed: nat,
    retrieved: nat,
    resets: nat,
    setterCalls: nat,
    pitchFrom: Option<real>,
    formant: Option<FormantOption>)

  /** A newly constructed engine: nothing buffered, nothing configured. */
  function Fresh(): EngineState
  {
    EngineState(0, 0, 0, 0, 0, None, None)
  }

  /** After pushing `n` samples the engine reports `nowAvailable`. */
  function Pushed(e: EngineState, n: nat, nowAvailable: int): EngineState
  {
    e.(avail := nowAvailable, pushed := e.pushed + n)
  }

  /** Taking `n` of the available samples out. */
  function Retrieved(e: EngineState, n: nat): EngineState
    requires n <= e.avail
  {
    e.(avail := e.avail - n, retrieved := e.retrieved + n)
  }

  /** reset() discards everything buffered; the settings survive it. */
  function Cleared(e: EngineState): EngineState
  {
    e.(avail := 0, pushed := 0, retrieved := 0, resets := e.resets + 1)
  }

  function PitchSet(e: EngineState, pitch: real): EngineState
  {
    e.(pitchFrom := Some(pitch), setterCalls := e.setterCalls + 1)
  }

  function FormantSet(e: EngineState, f: FormantOption): EngineState
  {
    e.(formant := Some(f), setterCalls := e.setterCalls + 1)
  }

  /** The stretcher object the conveyor holds a pointer to. */
  class Stretcher {
    var avail: int
    var pushed: nat
    var retrieved: nat
    var resets: nat
    var setterCalls: nat
    var pitchFrom: Option<real>
    var formant: Option<FormantOption>

    function State(): EngineState
      reads this
    {
      EngineState(avail, pushed, retrieved, resets, setterCalls, pitchFrom, formant)
    }

    constructor ()
      ensures State() == Fresh()
    {
      avail, pushed, retrieved, resets, setterCalls := 0, 0, 0, 0, 0;
      pitchFrom, formant := None, None;
    }

    /** process(): accept `n` input samples; the engine then has
        `nowAvailable` output samples ready (its own decision). */
    method Process(n: nat, nowAvailable: int)
      modifies this
      ensures State() == Pushed(old(State()), n, nowAvailable)
    {
      avail := nowAvailable;
      pushed := pushed + n;
    }

    /** available(): how many output samples are ready. */
    method Available() returns (a: int)
      ensures a == State().avail
    {
      a := avail;
    }

    /** retrieve(): writes exactly `n` samples; callers may only ask for
        what is available. */
    method Retrieve(n: nat) returns (written: nat)
      requires n <= avail
      modifies this
      ensures written == n
      ensures State() == Retrieved(old(State()), n)
    {
      avail := avail - n;
      retrieved := retrieved + n;
      written := n;
    }

    method Reset()
      modifies this
      ensures State() == Cleared(old(State()))
    {
      avail, pushed, retrieved := 0, 0, 0;
      resets := resets + 1;
    }

    /** setPitchScale(), called with the scale derived from slider value `pitch`. */
    method SetPitchScale(pitch: real)
      modifies this
      ensures State() == PitchSet(old(State()), pitch)
    {
      pitchFrom := Some(pitch);
      setterCalls := setterCalls + 1;
    }

    method SetFormantOption(f: FormantOption)
      modifies this
      ensures State() == FormantSet(old(State()), f)
    {
      formant := Some(f);
      setterCalls := setterCalls + 1;
    }
  }
}
