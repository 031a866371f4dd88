/** The single-track transport store: which track is focused and whether it
    plays, its volume, mute and the zen-mode view flag. Every action is a
    pure transition on an immutable record; none of them clamps or ties
    fields together beyond what the action itself writes. */
module PlayerStore {
  import opened Common

  /** A catalog entry. An empty `fileUrl` stands for a missing locator
      (every falsy value of the source). */
  datatype Track = Track(id: string, title: string, fileUrl: string, category: string, color: Option<string>)

  datatype PlayerState = PlayerState(
    isPlaying: bool,
    isMuted: bool,
    isZenMode: bool,
    volume: real,
    currentTrack: Option<Track>)

  const InitialVolume: real := 0.5

  const Initial := PlayerState(false, false, false, InitialVolume, None)

  /** The store as created: silent, unmuted, not in zen mode, half volume,
      nothing focused. */
  lemma InitialState()
    ensures !Initial.isPlaying && !Initial.isMuted && !Initial.isZenMode
    ensures Initial.volume == 0.5 && Initial.currentTrack == None
  {
  }

  function SetIsPlaying(p: PlayerState, playing: bool): (r: PlayerState)
    ensures r.isPlaying == playing
    ensures r == p.(isPlaying := playing)
  {
    PlayerState(playing, p.isMuted, p.isZenMode, p.volume, p.currentTrack)
  }

  /** Stores `v` exactly as given and always unmutes. */
  function SetVolume(p: PlayerState, v: real): (r: PlayerState)
    ensures r.volume == v && !r.isMuted
    ensures r.isPlaying == p.isPlaying && r.isZenMode == p.isZenMode && r.currentTrack == p.currentTrack
  {
    PlayerState(p.isPlaying, false, p.isZenMode, v, p.currentTrack)
  }

  /** Focuses `t` and starts playing it; mute, volume and zen mode are kept. */
  function SetTrack(p: PlayerState, t: Track): (r: PlayerState)
    ensures r.currentTrack == Some(t) && r.isPlaying
    ensures r.isMuted == p.isMuted && r.isZenMode == p.isZenMode && r.volume == p.volume
  {
    PlayerState(true, p.isMuted, p.isZenMode, p.volume, Some(t))
  }

  function TogglePlay(p: PlayerState): (r: PlayerState)
    ensures r.isPlaying != p.isPlaying
    ensures r == p.(isPlaying := r.isPlaying)
  {
    PlayerState(!p.isPlaying, p.isMuted, p.isZenMode, p.volume, p.currentTrack)
  }

  function ToggleMute(p: PlayerState): (r: PlayerState)
    ensures r.isMuted != p.isMuted
    ensures r == p.(isMuted := r.isMuted)
  {
    PlayerState(p.isPlaying, !p.isMuted, p.isZenMode, p.volume, p.currentTrack)
  }

  function ToggleZenMode(p: PlayerState): (r: PlayerState)
    ensures r.isZenMode != p.isZenMode
    ensures r == p.(isZenMode := r.isZenMode)
  {
    PlayerState(p.isPlaying, p.isMuted, !p.isZenMode, p.volume, p.currentTrack)
  }

  /** Each toggle undoes itself. */
  lemma TogglesAreInvolutions(p: PlayerState)
    ensures TogglePlay(TogglePlay(p)) == p
    ensures ToggleMute(ToggleMute(p)) == p
    ensures ToggleZenMode(ToggleZenMode(p)) == p
  {
  }

  /** The store does not couple `isPlaying` to `currentTrack`: from the
      initial state, `setIsPlaying(true)` yields a playing store with no
      focused track. */
  lemma PlayingWithoutTrackIsReachable()
    ensures SetIsPlaying(Initial, true).isPlaying
    ensures SetIsPlaying(Initial, true).currentTrack.None?
  {
  }

  /** Out-of-range volumes are stored verbatim. */
  lemma SetVolumeDoesNotClamp(p: PlayerState)
    ensures SetVolume(p, 1.5).volume == 1.5
    ensures SetVolume(p, -0.25).volume == -0.25
  {
  }
}
