/** The one-click scenario mixes. A click pauses the single-track player and
    clears the mixer before the request goes out; the response then fills
    the mixer with "AI Mix" layers whose volumes land 100 ms later. */
module MixGenerator {
  import opened Common
  import opened PlayerStore
  import opened MixerStore
  import opened MixCommand

  const Category: string := "AI Mix"

  /** The preset scenarios offered as buttons. */
  const Presets: seq<string> := ["sleep", "focus", "storm", "relax"]

  /** What the request came back with: a transport failure or non-ok status,
      or a body whose `mix` is present (an array of tracks) or absent. */
  datatype Response = Failed | Body(mix: Option<seq<MixTrack>>)

  datatype Gen = Gen(
    loading: Option<string>,
    player: PlayerState,
    mixer: MixerState,
    alerts: nat)

  /** The first half of `generateMix`, up to the request. The buttons are
      disabled while any scenario is loading, so a click then does nothing. */
  function Begin(g: Gen, scenario: string): (r: Gen)
    ensures g.loading.Some? ==> r == g
    ensures g.loading.None? ==>
      r.loading == Some(scenario)
      && r.player == SetIsPlaying(g.player, false)
      && r.mixer.activeSounds == []
      && r.mixer.isOpen == g.mixer.isOpen && r.mixer.currentMood == g.mixer.currentMood
      && r.alerts == g.alerts
  {
    if g.loading.Some? then g
    else
      RemoveEachOfSelfEmpties(g.mixer);
      Gen(Some(scenario), SetIsPlaying(g.player, false), RemoveEach(g.mixer, g.mixer.activeSounds), g.alerts)
  }

  datatype Completed = Completed(gen: Gen, pending: seq<Deferred>)

  /** The second half: every returned track is added under "AI Mix" with its
      volume update queued; a failure (including a body without `mix`, on
      which the loop throws) adds nothing and raises the alert. `loading` is
      cleared in every case. */
  function Complete(g: Gen, resp: Response): (r: Completed)
    ensures r.gen.loading.None? && r.gen.player == g.player
    ensures r.gen.mixer.isOpen == g.mixer.isOpen && r.gen.mixer.currentMood == g.mixer.currentMood
    ensures resp.Body? && resp.mix.Some? ==>
      r.gen.mixer == AddEach(g.mixer, resp.mix.value, Category)
      && r.pending == QueueOf(resp.mix.value)
      && r.gen.alerts == g.alerts
    ensures !(resp.Body? && resp.mix.Some?) ==>
      r.gen.mixer == g.mixer && r.pending == [] && r.gen.alerts == g.alerts + 1
  {
    match resp
    case Body(Some(mix)) =>
      Completed(Gen(None, g.player, AddEach(g.mixer, mix, Category), g.alerts), QueueOf(mix))
    case _ =>
      Completed(Gen(None, g.player, g.mixer, g.alerts + 1), [])
  }

  /** The whole click, the deferred updates included. */
  function Generate(g: Gen, scenario: string, resp: Response): (r: Gen)
    requires g.loading.None?
    ensures r.loading.None? && !r.player.isPlaying
  {
    var c := Complete(Begin(g, scenario), resp);
    c.gen.(mixer := Flush(c.gen.mixer, c.pending))
  }

  /** A successful mix with distinct ids replaces whatever was playing by
      exactly the returned tracks, in response order, at their returned
      volumes, with the single-track player paused. */
  lemma GenerateReplacesMix(g: Gen, scenario: string, mix: seq<MixTrack>)
    requires g.loading.None? && DistinctIds(mix)
    ensures Generate(g, scenario, Body(Some(mix))).mixer.activeSounds == Returned(mix, Category)
    ensures !Generate(g, scenario, Body(Some(mix))).player.isPlaying
  {
    var b := Begin(g, scenario);
    ApplyMix(b.mixer, mix, Category);
  }

  /** A failed request still leaves the player paused and the mixer empty:
      the clear happened before the request. */
  lemma FailureKeepsTheClear(g: Gen, scenario: string)
    requires g.loading.None?
    ensures Generate(g, scenario, Failed).mixer.activeSounds == []
    ensures Generate(g, scenario, Failed).mixer.currentMood == g.mixer.currentMood
    ensures Generate(g, scenario, Failed).alerts == g.alerts + 1
  {
  }
}
