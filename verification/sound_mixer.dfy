/** The mixer side panel: the "Surprise Me" mix, the rules for what the
    panel shows, and the per-row delete button and volume slider. */
module SoundMixer {
  import opened Common
  import opened PlayerStore
  import opened MixerStore
  import opened MixCommand
  import SmartMixPad

  const Category: string := "Surprise"

  /** The scenarios a surprise request picks from. */
  const Scenarios: seq<string> := ["deep sleep", "focus flow", "jungle storm", "meditation", "ocean waves"]

  /** `Math.floor(Math.random() * 5)` for a random number `u` in [0, 1). */
  function PickScenario(u: real): (r: string)
    requires 0.0 <= u < 1.0
    ensures r in Scenarios
  {
    var k := (u * |Scenarios| as real).Floor;
    assert 0 <= k < |Scenarios|;
    Scenarios[k]
  }

  /** What `fetchAI` produced: it threw, or it returned data whose `mix` is
      an array of tracks or is missing (or not an array). */
  datatype Response = Threw | Data(mix: Option<seq<MixTrack>>)

  datatype Surprise = Surprise(mixer: MixerState, pending: seq<Deferred>, isGenerating: bool)

  /** `handleSurprise`: adds every returned track under "Surprise" without
      clearing the layers already there, and queues its volume. Anything but
      an array of tracks changes nothing. */
  function HandleSurprise(st: MixerState, resp: Response): (r: Surprise)
    ensures !r.isGenerating
    ensures r.mixer.isOpen == st.isOpen && r.mixer.currentMood == st.currentMood
    ensures st.activeSounds <= r.mixer.activeSounds
    ensures resp.Data? && resp.mix.Some? ==>
      r.mixer == AddEach(st, resp.mix.value, Category) && r.pending == QueueOf(resp.mix.value)
    ensures !(resp.Data? && resp.mix.Some?) ==> r.mixer == st && r.pending == []
  {
    match resp
    case Data(Some(mix)) => Surprise(AddEach(st, mix, Category), QueueOf(mix), false)
    case _ => Surprise(st, [], false)
  }

  /** Surprise layers go after the existing ones: with fresh distinct ids
      the flushed mixer is the old list followed by the returned tracks at
      their returned volumes. */
  lemma SurpriseAppends(st: MixerState, mix: seq<MixTrack>)
    requires DistinctIds(mix)
    requires forall k :: 0 <= k < |mix| ==> !HasId(st.activeSounds, mix[k].id)
    ensures var r := HandleSurprise(st, Data(Some(mix)));
      Flush(r.mixer, r.pending).activeSounds == st.activeSounds + Returned(mix, Category)
  {
    var r := HandleSurprise(st, Data(Some(mix)));
    assert r.mixer == AddEach(st, mix, Category) && r.pending == QueueOf(mix);
    ApplyMix(st, mix, Category);
  }

  // ---------------------------------------------------------------------
  // What the panel shows

  /** The XY pad is mounted with at least two layers. */
  predicate ShowPad(st: MixerState)
  {
    |st.activeSounds| >= 2
  }

  /** The empty state (with its Surprise button) replaces the rows when
      there are no layers. */
  predicate ShowEmpty(st: MixerState)
  {
    |st.activeSounds| == 0
  }

  /** The panel's guard and the pad's own guard agree, so the pad is never
      mounted just to render nothing; the pad and the empty state never show
      together. */
  lemma PadGuardsAgree(st: MixerState)
    ensures ShowPad(st) <==> SmartMixPad.Rendered(st)
    ensures !(ShowPad(st) && ShowEmpty(st))
  {
  }

  /** The delete button of row `i`. */
  function DeleteRow(st: MixerState, i: nat): (r: MixerState)
    requires i < |st.activeSounds|
    ensures !HasId(r.activeSounds, st.activeSounds[i].track.id)
    ensures UniqueIds(st.activeSounds) ==>
      r.activeSounds == st.activeSounds[..i] + st.activeSounds[i + 1..]
    ensures r.isOpen == st.isOpen && r.currentMood == st.currentMood
  {
    RowRemoval(st.activeSounds, i);
    RemoveSound(st, st.activeSounds[i].track.id)
  }

  lemma RowRemoval(sounds: seq<MixerSound>, i: nat)
    requires i < |sounds|
    ensures UniqueIds(sounds) ==> Without(sounds, sounds[i].track.id) == sounds[..i] + sounds[i + 1..]
  {
    if UniqueIds(sounds) {
      RemoveKeepsOrder(sounds, i);
    }
  }

  /** The slider of row `i`, moved to `v`. */
  function SlideRow(st: MixerState, i: nat, v: real): (r: MixerState)
    requires i < |st.activeSounds|
    ensures UniqueIds(st.activeSounds) ==>
      r.activeSounds == st.activeSounds[i := MixerSound(st.activeSounds[i].track, v)]
    ensures r.isOpen == st.isOpen && r.currentMood == st.currentMood
  {
    UpdateVolume(st, st.activeSounds[i].track.id, v)
  }
}
