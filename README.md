# rubberbridge: the real-time pump and its latency policy

rubberbridge is a JACK client that pitch-shifts live audio through the
RubberBand stretcher, with an ncurses control surface for pitch, formant
policy and an output delay of 0 to 2000 ms. This project models its core:

- the per-cycle callback `process()`: push the cycle's `nframes` samples into
  the stretcher, add them to `pending_samples`, read `available()`, stop with
  exit status 2 on the fault value -1, and only when
  `nframes + delay_frames <= avail` retrieve exactly `nframes` samples and
  take them off the counter;
- the latency policy: delay tier `t` (0..4) buffers `t * (44100 / 2)` samples,
  that is the 0/500/1000/1500/2000 ms printed on the tier's button;
- the control loop's three change-detecting blocks: pitch, formant (0 is
  Preserved, 1 is Shifted), and delay tier, whose change re-derives
  `delay_frames`, zeroes `pending_samples` and resets the stretcher together.

Files and modules:

- `latency.dfy` (`Latency`): sample rate, the `Tier` type, the button labels, `DelayFrames`.
- `engine.dfy` (`Engine`): the stretcher as an opaque engine. An
  `EngineState` value and a `Stretcher` class whose methods are the calls the
  client makes (process, available, retrieve, reset, the two setters). What
  the engine reports after a push is its own decision, so it is a parameter
  (`nowAvailable`) of `Process`.
- `conveyor.dfy` (`Conveyor`): the shared fields of `paTestData` as a value,
  with one audio cycle (`Cycle`) and one control pass (`ApplyParams`) as
  functions. `Inv` is the invariant: `delay_frames` matches the tier, and
  `pending_samples` equals the samples pushed minus those retrieved since the
  last reset.
- `client.dfy` (`Client`): the class `ClientState`, which updates those fields
  in place and owns the stretcher. Its `Process` and `ApplyParams` methods are
  proved to compute `Conveyor.Cycle` and `Conveyor.ApplyParams`.
- `properties.dfy` (`Properties`): the callback and the control loop as a
  trace of interleaved events, plus lemmas over many steps. It also covers a
  one-to-one engine, which makes every pushed sample available, and the
  500 ms / 256-frame scenario.

Behaviour of the code the model keeps:

- Only the exact value -1 from `available()` is fatal. In the code, any
  other negative report is converted to unsigned for the comparison at
  line 69, so it passes the drain gate: retrieve is asked for `nframes`
  samples and `nframes` is taken off the counter.
  The model compares mathematical integers, so there such a report fails the
  gate and the cycle is withheld (see "Machine integers" under Left out).
- `pending_samples` never goes negative, whatever the engine reports
  (`RunPendingNonNegative`). A draining cycle adds and removes the same
  `nframes`, and a tier change sets the counter to zero. In the program it
  can still go negative through the unsynchronised threads or 32-bit
  wrap-around, both listed under Left out.
- Pitch, formant and tier changes are applied by the control loop, not by
  the audio callback. The model runs the two as interleaved steps.
- A cycle that does not drain leaves the output buffer untouched.

## Model

| member | source | states |
|---|---|---|
| Latency.DelayFrames | src/client.cpp:300 | the target for tier t, times 1000, equals the tier's button label in ms times 44100; it is a whole number of 22050-sample steps, exactly t of them |
| Latency.DelayFramesIncreasing | src/client.cpp:287-300 | a higher tier buffers at least 22050 more samples than a lower one |
| Engine.Stretcher.constructor | src/client.cpp:101 | a new stretcher buffers nothing and has no settings applied |
| Engine.Stretcher.Process | src/client.cpp:60 | pushing n samples adds n to the samples pushed since the last reset; afterwards available() reports the engine's own figure |
| Engine.Stretcher.Available | src/client.cpp:62 | returns the count the engine currently reports |
| Engine.Stretcher.Retrieve | src/client.cpp:72 | may only ask for at most what is available; writes exactly n samples and takes n off the available count |
| Engine.Stretcher.Reset | src/client.cpp:302 | clears the available, pushed and retrieved counts; pitch and formant settings survive |
| Engine.Stretcher.SetPitchScale | src/client.cpp:260 | records the slider value the scale was derived from, one setter call |
| Engine.Stretcher.SetFormantOption | src/client.cpp:276-279 | records the formant option, one setter call |
| Conveyor.Fill | src/client.cpp:60-61 | the first half of a cycle raises pending_samples and the engine's pushed count by exactly nframes, sets the engine's report, retrieves nothing and changes nothing else |
| Conveyor.Cycle | src/client.cpp:51-77 | fatal status 2 iff the report is exactly -1, and no other report is fatal, with no retrieval then; drains iff the report is not -1 and nframes + delay_frames <= avail; a drain retrieves exactly nframes (never more than available) and leaves the counter where it was; otherwise the counter ends nframes higher and nothing is retrieved; the parameters never change; Inv is preserved; the counter never ends below where it started; "retrieved <= pushed" is preserved |
| Conveyor.ApplyPitch | src/client.cpp:256-261 | stores the requested value; calls the pitch setter iff the value changed; an unchanged value leaves everything as it was |
| Conveyor.ApplyFormant | src/client.cpp:269-282 | stores the requested value; on a change, 0 sets Preserved and 1 sets Shifted; other values never call the engine; an unchanged value is a no-op |
| Conveyor.ApplyTier | src/client.cpp:296-303 | on a changed tier: stores it, recomputes delay_frames, zeroes pending_samples and resets the engine in one step; an unchanged tier is a no-op; Inv is preserved |
| Conveyor.ApplyParams | src/client.cpp:256-303 | the three requests are stored. Only a tier change resets, zeroing the counter and the engine's buffer. Setter calls equal the changed pitch and formant values the engine understands. Re-applying the last-applied values returns the state unchanged. Inv is preserved |
| Client.ClientState.constructor | src/client.cpp:20-28 | the fields start at delay 0, pending 0, pitch 0.0, tier 0, formant -1, with a fresh stretcher |
| Client.ClientState.Process | src/client.cpp:51-77 | the in-place callback ends in the state and outcome that Conveyor.Cycle gives for the old state |
| Client.ClientState.ApplyParams | src/client.cpp:256-303 | the in-place control pass ends in the state that Conveyor.ApplyParams gives for the old state |
| Properties.RunKeepsInv | src/client.cpp:61-74 | over any interleaving of cycles and control passes, delay_frames follows the tier, and the counter equals pushed minus retrieved since the last reset |
| Properties.InitialInv | src/client.cpp:23-27 | the start-up field values meet the invariant with nothing pending |
| Properties.InitialRunKeepsInv | src/client.cpp:51-303 | every run from start-up keeps the invariant |
| Properties.InitialRunPendingNonNegative | src/client.cpp:61-73 | from start-up, pending_samples never goes negative, whatever the engine reports |
| Properties.RunPendingNonNegative | src/client.cpp:61-73 | over any run and any engine reports, a counter that starts non-negative never goes negative |
| Properties.FaultEndsRun | src/client.cpp:62-68 | a -1 report ends the run with status 2 right after the push: no retrieval, no later pushes or parameter changes |
| Properties.OneToOneDrainsIffBuffered | src/client.cpp:69-74 | with a one-to-one engine, a cycle drains exactly when the samples already pending reach delay_frames |
| Properties.SteadyState | src/client.cpp:69-74 | once the target depth is buffered, every later cycle of any size drains and the shared fields stay as they are |
| Properties.Filling | src/client.cpp:69-74 | while the pending count before each cycle is below the target, no cycle drains and each cycle adds its size to the counter |
| Properties.FirstDrainAfterReset | src/client.cpp:69-74 | after a reset, with fixed cycles of n, the first k cycles are silent and cycle k+1 is the first to drain, where k is the least count with k*n at least the target |
| Properties.HalfSecondAt256 | src/client.cpp:289-302 | after switching to the 500 ms tier with 256-frame cycles, cycles 1 to 87 are silent and cycle 88 drains first |
| Properties.FirstControlPass | src/client.cpp:233-282 | the first control pass, from slider 1.25, formant 0 and tier 0, on any state whose parameters still hold their start values (pitch 0.0, formant -1, tier 0): it sets the pitch and, because of the stored -1, the Preserved formant. That is two setter calls, with no reset and the counter untouched |
| Properties.TierSwitchDiscards | src/client.cpp:296-303 | a tier switch mid-stream leaves the counter at 0 and the engine empty. A one-to-one engine then reports only the newly pushed samples, and the next cycle drains only if the new tier is 0 |

## Left out

- JACK client setup (lines 105-213): opening the client, registering and connecting ports, activation. This is transport I/O.
- Signal handlers, `jack_shutdown` and their exit paths (lines 35-41, 83-87, 216-225). These belong to the process lifecycle.
- The ImGui/ImTui rendering, the 50 ms `usleep` refresh and `cleanup_imtui`. These are UI. The slider and radio values enter only as the arguments of `ApplyParams`.
- The pitch ratio `pow(2.0, pitch_val - 1.0f)` and the "Actual Delay" figure `pending_samples * 1000.0 / 44100`. Both are floating point. Pitch is an opaque `real` that is only compared for change, and the engine records the slider value its scale came from.
- RubberBand's DSP. The engine's output count after each push is an input.
- Engine.Stretcher.Retrieve: does not model the sample values written to the output port, only how many.
- Client.ClientState.Process: does not model the contents of the output buffer, including the stale contents a non-draining cycle leaves in it.
- Concurrency between the UI thread and the real-time callback, which share the fields without synchronisation. Cycles and control passes are modelled as sequentially interleaved steps.
- Machine integers. The source compares the unsigned `nframes + delay_frames` with the `int` `avail`, a mixed signed/unsigned comparison, and `pending_samples` is a 32-bit `int`. The model uses mathematical integers with `nframes >= 0` and `delay_frames >= 0`, so it captures neither wrap-around nor the unsigned reading of a negative report other than -1.
- Latency.DelayFrames: tiers are restricted to 0..4, the only values the radio buttons produce.
