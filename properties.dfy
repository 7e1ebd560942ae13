/** What the conveyor guarantees over many steps: the callback and the control
    loop interleaved as a trace of events. */
module Properties {
  import opened Latency
  import opened Engine
  import opened Conveyor

  /** One audio cycle, or one pass of the control loop. */
  datatype Event =
    | Tick(nframes: nat, nowAvailable: int)
    | Controls(pitch: real, formant: int, tier: Tier)

  /** The state a run ends in and the outcome of each cycle it ran. */
  datatype Trace = Trace(sys: Sys, outcomes: seq<Outcome>)

  /** Run the events in order; the fatal exit ends the run. */
  function Run(s: Sys, evs: seq<Event>): Trace
    decreases |evs|
  {
    if evs == [] then Trace(s, [])
    else
      match evs[0]
      case Controls(p, f, t) => Run(ApplyParams(s, p, f, t), evs[1..])
      case Tick(n, a) =>
        var st := Cycle(s, n, a);
        if st.outcome.Fatal? then Trace(st.sys, [st.outcome])
        else
          var rest := Run(st.sys, evs[1..]);
          Trace(rest.sys, [st.outcome] + rest.outcomes)
  }

  /** Whatever the engine reports and whatever the controls request, the
      delay target follows the tier and the counter tracks the engine. */
  lemma {:induction false} RunKeepsInv(s: Sys, evs: seq<Event>)
    requires Inv(s)
    ensures Inv(Run(s, evs).sys)
    decreases |evs|
  {
    if evs != [] {
      match evs[0]
      case Controls(p, f, t) => RunKeepsInv(ApplyParams(s, p, f, t), evs[1..]);
      case Tick(n, a) =>
        if !Cycle(s, n, a).outcome.Fatal? {
          RunKeepsInv(Cycle(s, n, a).sys, evs[1..]);
        }
    }
  }

  /** Whatever the engine reports, a counter that starts non-negative never
      goes negative: a draining cycle adds and removes the same `nframes`,
      any other cycle only adds, and a tier change sets it to zero. */
  lemma {:induction false} RunPendingNonNegative(s: Sys, evs: seq<Event>)
    requires s.data.pending >= 0
    ensures Run(s, evs).sys.data.pending >= 0
    decreases |evs|
  {
    if evs != [] {
      match evs[0]
      case Controls(p, f, t) => RunPendingNonNegative(ApplyParams(s, p, f, t), evs[1..]);
      case Tick(n, a) =>
        if !Cycle(s, n, a).outcome.Fatal? {
          RunPendingNonNegative(Cycle(s, n, a).sys, evs[1..]);
        }
    }
  }

  /** The start-up state meets the invariant with nothing pending. */
  lemma InitialInv()
    ensures Inv(Initial()) && Initial().data.pending == 0
  {
  }

  /** From start-up, every run keeps the invariant. */
  lemma InitialRunKeepsInv(evs: seq<Event>)
    ensures Inv(Run(Initial(), evs).sys)
  {
    InitialInv();
    RunKeepsInv(Initial(), evs);
  }

  /** From start-up, the pending counter never goes negative. */
  lemma InitialRunPendingNonNegative(evs: seq<Event>)
    ensures Run(Initial(), evs).sys.data.pending >= 0
  {
    RunPendingNonNegative(Initial(), evs);
  }

  /** A fault report ends the run at once: no retrieval in that cycle and
      no further pushes, retrievals or parameter changes. */
  lemma FaultEndsRun(s: Sys, n: nat, rest: seq<Event>)
    ensures Run(s, [Tick(n, EngineFault)] + rest)
         == Trace(Fill(s, n, EngineFault), [Fatal(FatalStatus)])
  {
  }

  // ---- A one-to-one engine: every pushed sample becomes available output ----

  /** What a one-to-one engine reports after a push of `n` samples. */
  function OneToOne(s: Sys, n: nat): int
  {
    s.engine.pushed + n - s.engine.retrieved
  }

  /** Cycles of the given sizes against a one-to-one engine. */
  function Feed(s: Sys, sizes: seq<nat>): Trace
    decreases |sizes|
  {
    if sizes == [] then Trace(s, [])
    else
      var st := Cycle(s, sizes[0], OneToOne(s, sizes[0]));
      if st.outcome.Fatal? then Trace(st.sys, [st.outcome])
      else
        var rest := Feed(st.sys, sizes[1..]);
        Trace(rest.sys, [st.outcome] + rest.outcomes)
  }

  function Sum(sizes: seq<nat>): nat
  {
    if sizes == [] then 0 else sizes[0] + Sum(sizes[1..])
  }

  function Repeat(n: nat, k: nat): (r: seq<nat>)
    ensures |r| == k
  {
    if k == 0 then [] else [n] + Repeat(n, k - 1)
  }

  lemma {:induction false} SumRepeat(n: nat, k: nat)
    ensures Sum(Repeat(n, k)) == n * k
  {
    if k > 0 {
      assert Repeat(n, k)[1..] == Repeat(n, k - 1);
      SumRepeat(n, k - 1);
    }
  }

  /** With a one-to-one engine a cycle drains exactly when the samples
      already pending reach the delay target. */
  lemma OneToOneDrainsIffBuffered(s: Sys, n: nat)
    requires Inv(s) && s.data.pending >= 0
    ensures Cycle(s, n, OneToOne(s, n)).outcome
         == if s.data.pending >= s.data.delayFrames then Drained else Withheld
  {
  }

  /** Once the target depth is buffered, every later cycle drains and the
      buffered depth stays where it is, whatever the cycle sizes. */
  lemma {:induction false} SteadyState(s: Sys, sizes: seq<nat>)
    requires Inv(s) && s.data.pending >= s.data.delayFrames
    ensures |Feed(s, sizes).outcomes| == |sizes|
    ensures forall i :: 0 <= i < |sizes| ==> Feed(s, sizes).outcomes[i] == Drained
    ensures Feed(s, sizes).sys.data == s.data
    decreases |sizes|
  {
    if sizes != [] {
      var st := Cycle(s, sizes[0], OneToOne(s, sizes[0]));
      assert st.outcome == Drained;
      SteadyState(st.sys, sizes[1..]);
    }
  }

  /** While the samples pending before each cycle stay below the target,
      no cycle drains and every cycle adds its size to the counter. */
  lemma {:induction false} Filling(s: Sys, prefix: seq<nat>, n: nat)
    requires Inv(s) && s.data.pending >= 0
    requires s.data.pending + Sum(prefix) < s.data.delayFrames
    ensures |Feed(s, prefix + [n]).outcomes| == |prefix| + 1
    ensures forall i :: 0 <= i <= |prefix| ==> Feed(s, prefix + [n]).outcomes[i] == Withheld
    ensures Feed(s, prefix + [n]).sys.data == s.data.(pending := s.data.pending + Sum(prefix) + n)
    ensures Inv(Feed(s, prefix + [n]).sys)
    decreases |prefix|
  {
    var st := Cycle(s, (prefix + [n])[0], OneToOne(s, (prefix + [n])[0]));
    assert st.outcome == Withheld;
    if prefix != [] {
      assert (prefix + [n])[1..] == prefix[1..] + [n];
      Filling(st.sys, prefix[1..], n);
    } else {
      assert (prefix + [n])[1..] == [];
    }
  }

  /** Feeding two batches of cycles is feeding the first, then the second. */
  lemma {:induction false} FeedAppend(s: Sys, a: seq<nat>, b: seq<nat>)
    requires Inv(s) && s.data.pending >= 0
    ensures Inv(Feed(s, a).sys) && Feed(s, a).sys.data.pending >= 0
    ensures Feed(s, a + b)
         == Trace(Feed(Feed(s, a).sys, b).sys, Feed(s, a).outcomes + Feed(Feed(s, a).sys, b).outcomes)
    decreases |a|
  {
    if a == [] {
      assert a + b == b;
    } else {
      var st := Cycle(s, a[0], OneToOne(s, a[0]));
      assert (a + b)[0] == a[0] && (a + b)[1..] == a[1..] + b;
      assert !st.outcome.Fatal?;
      FeedAppend(st.sys, a[1..], b);
      var head := Feed(st.sys, a[1..]);
      var tail := Feed(head.sys, b);
      assert Feed(st.sys, a[1..] + b) == Trace(tail.sys, head.outcomes + tail.outcomes);
      assert Feed(s, a) == Trace(head.sys, [st.outcome] + head.outcomes);
      assert [st.outcome] + (head.outcomes + tail.outcomes) == ([st.outcome] + head.outcomes) + tail.outcomes;
    }
  }

  /** Cycles fed after a silent filling phase: the outcomes so far, then
      the outcome of one more cycle. */
  lemma FeedSnoc(s: Sys, prefix: seq<nat>, n: nat)
    requires Inv(s) && s.data.pending >= 0
    ensures var mid := Feed(s, prefix);
            Feed(s, prefix + [n]).outcomes == mid.outcomes + [Cycle(mid.sys, n, OneToOne(mid.sys, n)).outcome]
  {
    FeedAppend(s, prefix, [n]);
    var mid := Feed(s, prefix);
    assert [n][1..] == [];
  }

  /** Right after a tier change, with cycles of a fixed size `n` against a
      one-to-one engine, the first `k` cycles are silent and cycle `k + 1`
      is the first to drain, where `k` is the least count with k * n at
      least the target. */
  lemma FirstDrainAfterReset(s: Sys, n: nat, k: nat)
    requires Inv(s) && s.data.pending == 0
    requires k * n >= s.data.delayFrames
    requires k == 0 || (k - 1) * n < s.data.delayFrames
    ensures var tr := Feed(s, Repeat(n, k + 1));
            |tr.outcomes| == k + 1
            && (forall i :: 0 <= i < k ==> tr.outcomes[i] == Withheld)
            && tr.outcomes[k] == Drained
  {
    RepeatSnoc(n, k);
    FeedSnoc(s, Repeat(n, k), n);
    var mid := Feed(s, Repeat(n, k));
    if k == 0 {
      assert Repeat(n, k) == [];
      assert mid.sys == s && s.data.delayFrames == 0;
    } else {
      FillingAtCount(s, n, k);
      assert mid.sys.data.delayFrames == s.data.delayFrames;
    }
    assert Inv(mid.sys) && mid.sys.data.pending >= mid.sys.data.delayFrames;
    OneToOneDrainsIffBuffered(mid.sys, n);
  }

  /** `k` silent cycles of size `n` leave `k * n` samples pending. */
  lemma FillingAtCount(s: Sys, n: nat, k: nat)
    requires Inv(s) && s.data.pending == 0
    requires 0 < k && (k - 1) * n < s.data.delayFrames
    ensures var mid := Feed(s, Repeat(n, k));
            |mid.outcomes| == k
            && (forall i :: 0 <= i < k ==> mid.outcomes[i] == Withheld)
            && Inv(mid.sys) && mid.sys.data == s.data.(pending := k * n)
  {
    var m := k - 1;
    SumRepeat(n, m);
    assert Sum(Repeat(n, m)) == m * n;
    RepeatSnoc(n, m);
    Filling(s, Repeat(n, m), n);
    assert m * n + n == k * n;
  }

  lemma {:induction false} RepeatSnoc(n: nat, k: nat)
    ensures Repeat(n, k + 1) == Repeat(n, k) + [n]
  {
    if k > 0 {
      RepeatSnoc(n, k - 1);
    }
  }

  /** The 500 ms tier at 256-sample cycles: after switching to tier 1 the
      first 87 cycles are silent and the 88th is the first to drain. */
  lemma HalfSecondAt256(s: Sys, pitch: real, formant: int)
    requires Inv(s) && s.data.tier != 1
    ensures var t := ApplyParams(s, pitch, formant, 1);
            |Feed(t, Repeat(256, 88)).outcomes| == 88
            && (forall i :: 0 <= i < 87 ==> Feed(t, Repeat(256, 88)).outcomes[i] == Withheld)
            && Feed(t, Repeat(256, 88)).outcomes[87] == Drained
  {
    var t := ApplyParams(s, pitch, formant, 1);
    assert t.data.delayFrames == 22050;
    FirstDrainAfterReset(t, 256, 87);
  }

  /** The first pass of the control loop with its initial slider (1.25),
      formant (0) and tier (0) values. Cycles may already have run, so only
      the parameters are assumed to be at their start values. The pass sets
      the pitch and the Preserved formant (the stored -1 never matches a
      real choice) and does not touch the counter or reset the engine. */
  lemma FirstControlPass(s: Sys)
    requires s.data.pitch == 0.0 && s.data.formantPref == -1 && s.data.tier == 0
    ensures var u := ApplyParams(s, 1.25, 0, 0);
            u.engine.pitchFrom == Some(1.25)
            && u.engine.formant == Some(Preserved)
            && u.engine.setterCalls == s.engine.setterCalls + 2
            && u.engine.resets == s.engine.resets
            && u.data.pending == s.data.pending
  {
  }

  /** Switching tiers mid-stream discards what was buffered: the counter is
      zero and the engine's availability afterwards reflects only the
      samples pushed after the switch. */
  lemma TierSwitchDiscards(s: Sys, pitch: real, formant: int, t: Tier, n: nat)
    requires Inv(s) && t != s.data.tier
    ensures var u := ApplyParams(s, pitch, formant, t);
            u.data.pending == 0 && u.engine.avail == 0
            && OneToOne(u, n) == n
            && Cycle(u, n, OneToOne(u, n)).outcome == (if t == 0 then Drained else Withheld)
  {
  }
}
