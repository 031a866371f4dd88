/** The headless single-track player: the commands its effects issue to the
    audio element when the player store changes, its error policy, and the
    store updates driven by the element's media events. */
module AudioPlayer {
  import opened Common
  import opened PlayerStore

  /** A command to the audio element or the analyzer. */
  datatype Cmd =
    | InitAnalyzer
    | ResumeAnalyzer
    | Play
    | Pause
    | SetElementVolume(v: real)
    | SetSrc(url: string)

  /** The element volume: silent while muted, the store volume otherwise. */
  function EffectiveVolume(p: PlayerState): (v: real)
    ensures p.isMuted ==> v == 0.0
    ensures !p.isMuted ==> v == p.volume
  {
    if p.isMuted then 0.0 else p.volume
  }

  /** Setting a volume always makes it audible at exactly that level, and
      muting silences it whatever the level. */
  lemma VolumeAndMute(p: PlayerState, v: real)
    ensures EffectiveVolume(SetVolume(p, v)) == v
    ensures !p.isMuted ==> EffectiveVolume(ToggleMute(p)) == 0.0
    ensures p.isMuted ==> EffectiveVolume(ToggleMute(p)) == p.volume
  {
  }

  /** The source effect: the locator is assigned only when the track has
      one and it differs from what the element holds. */
  function NextSrc(src: string, track: Option<Track>): (r: string)
    ensures track.Some? && track.value.fileUrl != "" ==> r == track.value.fileUrl
    ensures track.None? || track.value.fileUrl == "" ==> r == src
  {
    if track.Some? && track.value.fileUrl != "" && src != track.value.fileUrl then track.value.fileUrl
    else src
  }

  /** Running the source effect twice is the same as running it once. */
  lemma NextSrcIdempotent(src: string, track: Option<Track>)
    ensures NextSrc(NextSrc(src, track), track) == NextSrc(src, track)
  {
  }

  // The five effects of one commit, each a function of the previous store
  // (None on the first mount, when every effect runs) and the current one.

  /** Analyzer set-up, on the first mount only. */
  function InitEffect(prev: Option<PlayerState>): seq<Cmd>
  {
    if prev.None? then [InitAnalyzer] else []
  }

  /** Playback sync, when `isPlaying` changed. */
  function SyncEffect(prev: Option<PlayerState>, cur: PlayerState): seq<Cmd>
  {
    if prev.Some? && prev.value.isPlaying == cur.isPlaying then []
    else if cur.isPlaying then [ResumeAnalyzer, Play] else [Pause]
  }

  /** Element volume, when the volume or the mute flag changed. */
  function VolumeEffect(prev: Option<PlayerState>, cur: PlayerState): seq<Cmd>
  {
    if prev.Some? && prev.value.volume == cur.volume && prev.value.isMuted == cur.isMuted then []
    else [SetElementVolume(EffectiveVolume(cur))]
  }

  predicate TrackChanged(prev: Option<PlayerState>, cur: PlayerState)
  {
    prev.None? || prev.value.currentTrack != cur.currentTrack
  }

  /** Source assignment, when the track changed and its locator is new. */
  function SourceEffect(prev: Option<PlayerState>, cur: PlayerState, src: string): seq<Cmd>
  {
    if TrackChanged(prev, cur) && NextSrc(src, cur.currentTrack) != src then [SetSrc(NextSrc(src, cur.currentTrack))]
    else []
  }

  /** Autoplay, when the track or the playing flag changed and it plays. */
  function AutoplayEffect(prev: Option<PlayerState>, cur: PlayerState): seq<Cmd>
  {
    if (TrackChanged(prev, cur) || prev.value.isPlaying != cur.isPlaying) && cur.isPlaying then [Play] else []
  }

  /** The commands one commit issues, in effect order. */
  function Effects(prev: Option<PlayerState>, cur: PlayerState, src: string): (cmds: seq<Cmd>)
    ensures prev.None? ==> |cmds| > 0 && cmds[0] == InitAnalyzer
    ensures InitAnalyzer in cmds <==> prev.None?
  {
    InitEffect(prev) + SyncEffect(prev, cur) + VolumeEffect(prev, cur)
      + SourceEffect(prev, cur, src) + AutoplayEffect(prev, cur)
  }

  /** Pause and resume follow changes of the playing flag; play is only
      issued while playing, and always when a track starts or playback
      resumes. */
  lemma PlaybackEffects(prev: Option<PlayerState>, cur: PlayerState, src: string)
    ensures var cmds := Effects(prev, cur, src);
      (Pause in cmds <==> !cur.isPlaying && (prev.None? || prev.value.isPlaying))
      && (ResumeAnalyzer in cmds <==> cur.isPlaying && (prev.None? || !prev.value.isPlaying))
      && (Play in cmds ==> cur.isPlaying)
      && (cur.isPlaying && (TrackChanged(prev, cur) || !prev.value.isPlaying) ==> Play in cmds)
  {
    InParts(prev, cur, src, Pause);
    InParts(prev, cur, src, ResumeAnalyzer);
    InParts(prev, cur, src, Play);
  }

  /** A command is issued when one of the five effects issues it. */
  lemma InParts(prev: Option<PlayerState>, cur: PlayerState, src: string, c: Cmd)
    ensures c in Effects(prev, cur, src) <==>
      c in InitEffect(prev) || c in SyncEffect(prev, cur) || c in VolumeEffect(prev, cur)
      || c in SourceEffect(prev, cur, src) || c in AutoplayEffect(prev, cur)
  {
  }

  /** The element volume is set exactly when the volume or the mute flag
      changed, and always to the audible level. */
  lemma VolumeEffects(prev: Option<PlayerState>, cur: PlayerState, src: string)
    ensures var cmds := Effects(prev, cur, src);
      ((exists v :: SetElementVolume(v) in cmds) <==>
        prev.None? || prev.value.volume != cur.volume || prev.value.isMuted != cur.isMuted)
      && (forall v :: SetElementVolume(v) in cmds ==> v == EffectiveVolume(cur))
  {
    var cmds := Effects(prev, cur, src);
    forall v ensures SetElementVolume(v) in cmds <==> SetElementVolume(v) in VolumeEffect(prev, cur) {
      InParts(prev, cur, src, SetElementVolume(v));
    }
    if prev.None? || prev.value.volume != cur.volume || prev.value.isMuted != cur.isMuted {
      assert SetElementVolume(EffectiveVolume(cur)) in VolumeEffect(prev, cur);
    }
  }

  /** A source is assigned only from the current track's non-empty
      locator, and only when it differs from what the element holds. */
  lemma SourceEffects(prev: Option<PlayerState>, cur: PlayerState, src: string)
    ensures forall u :: SetSrc(u) in Effects(prev, cur, src) ==>
      cur.currentTrack.Some? && u == cur.currentTrack.value.fileUrl && u != "" && u != src
  {
    forall u | SetSrc(u) in Effects(prev, cur, src)
      ensures cur.currentTrack.Some? && u == cur.currentTrack.value.fileUrl && u != "" && u != src
    {
      OnlySourceSetsSrc(prev, cur, src, u);
    }
  }

  lemma OnlySourceSetsSrc(prev: Option<PlayerState>, cur: PlayerState, src: string, u: string)
    requires SetSrc(u) in Effects(prev, cur, src)
    ensures SourceEffect(prev, cur, src) == [SetSrc(u)]
  {
    assert SetSrc(u) !in InitEffect(prev) + SyncEffect(prev, cur) + VolumeEffect(prev, cur);
    assert SetSrc(u) !in AutoplayEffect(prev, cur);
  }

  /** The sync effect's play was rejected with an error named `name`: an
      AbortError (an interrupted load) leaves the store alone; anything else
      stops playback. The autoplay effect's rejections are swallowed and
      change nothing. */
  function OnSyncPlayRejected(p: PlayerState, name: string): (r: PlayerState)
    ensures name == "AbortError" ==> r == p
    ensures name != "AbortError" ==> r == SetIsPlaying(p, false)
  {
    if name != "AbortError" then SetIsPlaying(p, false) else p
  }

  /** Events the element reports. */
  datatype MediaEvent = Ended | Paused | Started

  function OnMediaEvent(p: PlayerState, e: MediaEvent): (r: PlayerState)
    ensures r.isPlaying <==> e.Started?
    ensures r == p.(isPlaying := r.isPlaying)
  {
    match e
    case Ended => SetIsPlaying(p, false)
    case Paused => SetIsPlaying(p, false)
    case Started => SetIsPlaying(p, true)
  }

  /** A non-abort error from the sync play is self-consistent: the store
      stops playing, so the next commit pauses the element instead of
      retrying; an abort leaves nothing to re-issue. */
  lemma PlaybackErrorPauses(p: PlayerState, name: string, src: string)
    requires p.isPlaying && name != "AbortError"
    ensures var q := OnSyncPlayRejected(p, name);
      !q.isPlaying && Pause in Effects(Some(p), q, src) && Play !in Effects(Some(p), q, src)
    ensures Effects(Some(p), OnSyncPlayRejected(p, "AbortError"), src) == []
  {
  }
}
