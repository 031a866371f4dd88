/** The binaural beat generator: two sine oscillators, the left at the
    base frequency panned hard left and the right at base plus beat panned
    hard right, into one gain node. The audio graph is modelled by what was
    scheduled on it: each oscillator's starting frequency and the linear
    ramps queued after it, and the gain's value and target changes. */
module Binaural {
  import opened Common

  datatype Preset = Preset(name: string, beat: real, base: real)

  const Presets: seq<Preset> := [
    Preset("Deep Sleep (Delta)", 2.0, 100.0),
    Preset("Meditation (Theta)", 6.0, 150.0),
    Preset("Relaxation (Alpha)", 10.0, 200.0),
    Preset("Active Focus (Beta)", 20.0, 250.0),
    Preset("High Performance (Gamma)", 40.0, 300.0)
  ]

  /** Ramps end this long after the context's current time, and the gain
      approaches its target with this time constant, both in seconds. */
  const RampTime: real := 0.1
  const GainTimeConstant: real := 0.1

  /** `linearRampToValueAtTime(target, at)`. */
  datatype Ramp = Ramp(target: real, at: real)

  datatype Oscillator = Oscillator(start: real, pan: real, running: bool, ramps: seq<Ramp>)

  /** `setTargetAtTime(target, from, timeConstant)`. */
  datatype GainTarget = GainTarget(target: real, from: real, timeConstant: real)

  /** One graph built by `initAudio`; `closed` is its context's state. */
  datatype Graph = Graph(closed: bool, left: Oscillator, right: Oscillator, gain: real, gainTargets: seq<GainTarget>)

  /** The component: its four state values and the graph its refs hold
      (the refs are never cleared, so a stopped graph stays referenced). */
  datatype Gen = Gen(isPlaying: bool, base: real, beat: real, volume: real, graph: Option<Graph>)

  const Initial := Gen(false, 200.0, 10.0, 0.5, None)

  /** The frequency an oscillator is heading for: its last ramp's target,
      or its starting frequency when nothing was ramped. */
  function Heading(o: Oscillator): real
  {
    if |o.ramps| == 0 then o.start else o.ramps[|o.ramps| - 1].target
  }

  /** `initAudio`: a fresh context and both oscillators started. */
  function InitAudio(base: real, beat: real, volume: real): (g: Graph)
    ensures !g.closed && g.left.running && g.right.running
    ensures g.left.pan == -1.0 && g.right.pan == 1.0
    ensures g.right.start - g.left.start == beat && g.left.start == base
    ensures g.left.ramps == [] && g.right.ramps == [] && g.gain == volume && g.gainTargets == []
  {
    Graph(false, Oscillator(base, -1.0, true, []), Oscillator(base + beat, 1.0, true, []), volume, [])
  }

  /** `togglePlay`: stopping halts both oscillators and closes the context;
      starting builds a new graph from the given base and beat. */
  function TogglePlay(g: Gen, base: real, beat: real): (r: Gen)
    ensures r.isPlaying == !g.isPlaying
    ensures r.base == g.base && r.beat == g.beat && r.volume == g.volume
    ensures !g.isPlaying ==> r.graph == Some(InitAudio(base, beat, g.volume))
    ensures g.isPlaying && g.graph.Some? ==>
      r.graph.Some? && r.graph.value.closed && !r.graph.value.left.running && !r.graph.value.right.running
    ensures g.isPlaying && g.graph.None? ==> r.graph.None?
  {
    if g.isPlaying then
      var stopped := match g.graph
        case None => None
        case Some(gr) => Some(gr.(closed := true, left := gr.left.(running := false), right := gr.right.(running := false)));
      g.(isPlaying := false, graph := stopped)
    else g.(isPlaying := true, graph := Some(InitAudio(base, beat, g.volume)))
  }

  /** The frequency effect: while playing, ramp the left oscillator to the
      base and the right to base plus beat, both ending at `now + 0.1`;
      while stopped it schedules nothing. */
  function RampEffect(g: Gen, now: real): (r: Gen)
    ensures !g.isPlaying ==> r == g
    ensures r.isPlaying == g.isPlaying && r.base == g.base && r.beat == g.beat && r.volume == g.volume
    ensures g.isPlaying && g.graph.Some? ==>
      r.graph.Some? && r.graph.value.left.ramps == g.graph.value.left.ramps + [Ramp(g.base, now + RampTime)]
      && r.graph.value.right.ramps == g.graph.value.right.ramps + [Ramp(g.base + g.beat, now + RampTime)]
      && r.graph.value.closed == g.graph.value.closed
  {
    if !g.isPlaying then g
    else match g.graph
      case None => g
      case Some(gr) =>
        g.(graph := Some(gr.(left := gr.left.(ramps := gr.left.ramps + [Ramp(g.base, now + RampTime)]),
                             right := gr.right.(ramps := gr.right.ramps + [Ramp(g.base + g.beat, now + RampTime)]))))
  }

  /** The play button: toggle, then the frequency effect (its `isPlaying`
      dependency always changed). */
  function Toggle(g: Gen, now: real): (r: Gen)
  {
    RampEffect(TogglePlay(g, g.base, g.beat), now)
  }

  /** The beat slider: the effect runs when the value changed. */
  function SetBeat(g: Gen, beat: real, now: real): (r: Gen)
  {
    if beat == g.beat then g else RampEffect(g.(beat := beat), now)
  }

  /** The base slider. */
  function SetBase(g: Gen, base: real, now: real): (r: Gen)
  {
    if base == g.base then g else RampEffect(g.(base := base), now)
  }

  /** The volume slider: when a gain node exists, a target change with
      time constant 0.1 from the context's current time. */
  function SetVolume(g: Gen, volume: real, now: real): (r: Gen)
    ensures r.volume == volume && r.isPlaying == g.isPlaying && r.base == g.base && r.beat == g.beat
    ensures volume != g.volume && g.graph.Some? ==>
      r.graph == Some(g.graph.value.(gainTargets := g.graph.value.gainTargets + [GainTarget(volume, now, GainTimeConstant)]))
    ensures volume == g.volume || g.graph.None? ==> r.graph == g.graph
  {
    if volume == g.volume then g
    else match g.graph
      case None => g.(volume := volume)
      case Some(gr) => g.(volume := volume, graph := Some(gr.(gainTargets := gr.gainTargets + [GainTarget(volume, now, GainTimeConstant)])))
  }

  /** A preset button: both values are set and, when stopped, `togglePlay`
      runs in the same handler, so it still sees the values of the render
      that was clicked; the frequency effect of the next render then ramps
      to the preset. */
  function PresetClick(g: Gen, i: nat, now: real): (r: Gen)
    requires i < |Presets|
  {
    var p := Presets[i];
    var chosen := g.(beat := p.beat, base := p.base);
    var toggled := if !g.isPlaying then TogglePlay(chosen, g.base, g.beat) else chosen;
    if !g.isPlaying || p.beat != g.beat || p.base != g.base then RampEffect(toggled, now) else toggled
  }

  /** Unmount: closes the context unless it is already closed. */
  function Unmount(g: Gen): (r: Gen)
    ensures g.graph.None? ==> r == g
    ensures g.graph.Some? ==> r.graph.Some? && r.graph.value.closed
    ensures g.graph.Some? && g.graph.value.closed ==> r == g
  {
    match g.graph
    case None => g
    case Some(gr) => if gr.closed then g else g.(graph := Some(gr.(closed := true)))
  }

  // ---------------------------------------------------------------------
  // The invariant

  /** While playing, a live graph heads for the current base on the left
      and base plus beat on the right. */
  predicate Inv(g: Gen)
  {
    g.isPlaying ==>
      g.graph.Some? && !g.graph.value.closed
      && g.graph.value.left.running && g.graph.value.right.running
      && g.graph.value.left.pan == -1.0 && g.graph.value.right.pan == 1.0
      && Heading(g.graph.value.left) == g.base
      && Heading(g.graph.value.right) == g.base + g.beat
  }

  lemma InitialState()
    ensures !Initial.isPlaying && Initial.base == 200.0 && Initial.beat == 10.0 && Initial.volume == 0.5
    ensures Inv(Initial)
  {
  }

  /** The effect after any change restores the invariant as long as the
      graph (if playing) is live. */
  lemma RampRestores(g: Gen, now: real)
    requires g.isPlaying ==> (g.graph.Some? && !g.graph.value.closed
      && g.graph.value.left.running && g.graph.value.right.running
      && g.graph.value.left.pan == -1.0 && g.graph.value.right.pan == 1.0)
    ensures Inv(RampEffect(g, now))
  {
  }

  /** Every event keeps the invariant, so right minus left always heads for
      the beat frequency. */
  lemma {:induction false} EventsKeepInv(g: Gen, now: real, x: real, i: nat)
    requires Inv(g)
    ensures Inv(Toggle(g, now))
    ensures Inv(SetBeat(g, x, now)) && Inv(SetBase(g, x, now)) && Inv(SetVolume(g, x, now))
    ensures i < |Presets| ==> Inv(PresetClick(g, i, now))
  {
    RampRestores(TogglePlay(g, g.base, g.beat), now);
    if x != g.beat { RampRestores(g.(beat := x), now); }
    if x != g.base { RampRestores(g.(base := x), now); }
    if i < |Presets| {
      var p := Presets[i];
      var chosen := g.(beat := p.beat, base := p.base);
      if !g.isPlaying {
        RampRestores(TogglePlay(chosen, g.base, g.beat), now);
      } else if p.beat != g.beat || p.base != g.base {
        RampRestores(chosen, now);
      }
    }
  }

  /** The beat the listener hears: right minus left. */
  lemma BeatIsTheDifference(g: Gen)
    requires Inv(g) && g.isPlaying
    ensures Heading(g.graph.value.right) - Heading(g.graph.value.left) == g.beat
  {
  }

  /** Sliders move nothing in a stopped generator's graph. */
  lemma NothingScheduledWhileStopped(g: Gen, x: real, now: real)
    requires !g.isPlaying
    ensures SetBeat(g, x, now).graph == g.graph && SetBase(g, x, now).graph == g.graph
  {
  }

  /** Stop then start: the old context is closed and a fresh graph with no
      ramps is built from the current values. */
  lemma StopThenStart(g: Gen, now1: real, now2: real)
    requires Inv(g) && g.isPlaying
    ensures var stopped := Toggle(g, now1);
      !stopped.isPlaying && stopped.graph.Some? && stopped.graph.value.closed
    ensures var again := TogglePlay(Toggle(g, now1), g.base, g.beat);
      again.isPlaying && again.graph == Some(InitAudio(g.base, g.beat, g.volume))
  {
  }

  /** A preset clicked while stopped starts the oscillators at the previous
      values, then ramps them to the preset within 0.1 s. */
  lemma PresetFromStopped(g: Gen, i: nat, now: real)
    requires !g.isPlaying && i < |Presets|
    ensures var r := PresetClick(g, i, now);
      r.isPlaying && r.beat == Presets[i].beat && r.base == Presets[i].base
      && r.graph.Some? && r.graph.value.left.start == g.base
      && r.graph.value.right.start == g.base + g.beat
      && r.graph.value.left.ramps == [Ramp(Presets[i].base, now + RampTime)]
      && r.graph.value.right.ramps == [Ramp(Presets[i].base + Presets[i].beat, now + RampTime)]
  {
  }

  /** The presets run from delta to gamma: beats strictly increase, and so
      do the carriers, from 100 Hz to 300 Hz in 50 Hz steps. */
  lemma PresetsAscend(i: nat, j: nat)
    requires i < j < |Presets|
    ensures Presets[i].beat < Presets[j].beat
    ensures Presets[j].base == 100.0 + 50.0 * j as real
  {
  }

  /** Unmounting always leaves a referenced context closed, and a second
      unmount changes nothing. */
  lemma UnmountCloses(g: Gen)
    ensures Unmount(Unmount(g)) == Unmount(g)
  {
  }
}
