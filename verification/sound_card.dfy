/** A library card: which card is the focused one, what a click on it
    does to the player and the mixer, the layer button, and the shared
    waveform cache. */
module SoundCard {
  import opened Common
  import opened PlayerStore
  import opened MixerStore

  /** A card for a track without a locator renders nothing. */
  predicate Renders(t: Track)
  {
    t.fileUrl != ""
  }

  predicate IsCurrent(p: PlayerState, t: Track)
  {
    p.currentTrack.Some? && p.currentTrack.value.id == t.id
  }

  /** The card shows a pause icon exactly when its track is focused and
      playing. */
  predicate IsActive(p: PlayerState, t: Track)
  {
    IsCurrent(p, t) && p.isPlaying
  }

  /** Who `auth.getUser()` reports, or that the call threw. */
  datatype Session = SignedOut | SignedIn(userId: string) | AuthFailed

  /** A "play" row for the interaction log. */
  datatype Interaction = Interaction(userId: string, soundId: string, kind: string)

  datatype Clicked = Clicked(player: PlayerState, mixer: MixerState, logged: Option<Interaction>)

  /** `handleClick`. On the focused card it only toggles playback. On any
      other card it stops the whole mix, focuses and plays the track, then
      logs a "play" row for a signed-in user; the logging happens after
      both store updates and its failure is caught, so it never changes
      them. */
  function HandleClick(p: PlayerState, m: MixerState, t: Track, session: Session): (r: Clicked)
    ensures IsCurrent(p, t) ==> r == Clicked(TogglePlay(p), m, None)
    ensures !IsCurrent(p, t) ==>
      r.player == SetTrack(p, t) && r.mixer == StopAll(m)
    ensures !IsCurrent(p, t) && session.SignedIn? ==> r.logged == Some(Interaction(session.userId, t.id, "play"))
    ensures !session.SignedIn? ==> r.logged.None?
  {
    if IsCurrent(p, t) then Clicked(TogglePlay(p), m, None)
    else
      var logged := if session.SignedIn? then Some(Interaction(session.userId, t.id, "play")) else None;
      Clicked(SetTrack(p, t), StopAll(m), logged)
  }

  /** Whatever the log does, the stores end up the same. */
  lemma LoggingNeverChangesState(p: PlayerState, m: MixerState, t: Track, s1: Session, s2: Session)
    ensures HandleClick(p, m, t, s1).player == HandleClick(p, m, t, s2).player
    ensures HandleClick(p, m, t, s1).mixer == HandleClick(p, m, t, s2).mixer
  {
  }

  /** After a click on another card that card is the active one, and the
      mixer is silent with no mood: one source plays at a time. */
  lemma ClickFocusesTheCard(p: PlayerState, m: MixerState, t: Track, s: Session)
    requires !IsCurrent(p, t)
    ensures var r := HandleClick(p, m, t, s);
      IsActive(r.player, t) && r.mixer.activeSounds == [] && r.mixer.currentMood.None?
  {
  }

  /** Clicking the active card pauses it, and clicking again resumes it. */
  lemma ClickTwiceOnCurrent(p: PlayerState, m: MixerState, t: Track, s: Session)
    requires IsCurrent(p, t)
    ensures var once := HandleClick(p, m, t, s);
      IsActive(once.player, t) == !IsActive(p, t)
      && HandleClick(once.player, once.mixer, t, s).player == p
  {
  }

  /** The layer button adds the track to the mix and leaves the player
      alone. */
  function LayerClick(p: PlayerState, m: MixerState, t: Track): (r: Clicked)
    ensures r.player == p && r.mixer == AddSound(m, t) && r.logged.None?
  {
    Clicked(p, AddSound(m, t), None)
  }

  // ---------------------------------------------------------------------
  // The waveform cache

  /** The waveform request threw, or answered with or without a waveform. */
  datatype WaveformReply = Threw | Answer(waveform: Option<seq<real>>)

  /** What a card's mount did: the cache afterwards, the bars it shows,
      and whether it asked the analysis service. */
  datatype Loaded = Loaded(cache: map<string, seq<real>>, shown: seq<real>, requested: bool)

  /** The waveform effect. A cached entry (an empty array included, since
      arrays are truthy) is shown without a request. Otherwise the
      service's waveform, or an empty one when the reply has none, is cached
      and shown; a failed request caches nothing. */
  function LoadWaveform(cache: map<string, seq<real>>, url: string, reply: WaveformReply): (r: Loaded)
    requires url != ""
    ensures url in cache ==> r == Loaded(cache, cache[url], false)
    ensures url !in cache ==> r.requested
    ensures url !in cache && reply.Answer? ==>
      r.cache == cache[url := r.shown]
      && r.shown == (if reply.waveform.Some? then reply.waveform.value else [])
    ensures url !in cache && reply.Threw? ==> r.cache == cache && r.shown == []
  {
    if url in cache then Loaded(cache, cache[url], false)
    else match reply
      case Threw => Loaded(cache, [], true)
      case Answer(w) =>
        var wave := if w.Some? then w.value else [];
        Loaded(cache[url := wave], wave, true)
  }

  /** After one answered request, every later card for the same locator is
      served from the cache, whatever the service would say. */
  lemma CacheServesLaterMounts(cache: map<string, seq<real>>, url: string, r1: WaveformReply, r2: WaveformReply)
    requires url != "" && r1.Answer?
    ensures var first := LoadWaveform(cache, url, r1);
      var second := LoadWaveform(first.cache, url, r2);
      !second.requested && second.shown == first.shown && second.cache == first.cache
  {
  }
}
