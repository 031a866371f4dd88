/** The webcam mood mixer: a screenshot goes to the face-analysis service;
    on an answer the mixer is cleared and, when a mix came back, refilled
    with "Face: <emotion>" layers, the first louder than the rest. */
module FaceDJ {
  import opened Common
  import opened PlayerStore
  import opened MixerStore
  import opened MixCommand

  const LeadVolume: real := 0.8
  const BedVolume: real := 0.4

  /** The analysis request threw, or answered with an emotion and, perhaps,
      a mix (an empty array is still a mix: it is truthy). */
  datatype Response = Threw | Data(emotion: string, mix: Option<seq<MixTrack>>)

  datatype Face = Face(
    isScanning: bool,
    emotion: Option<string>,
    player: PlayerState,
    mixer: MixerState,
    closed: bool)

  function CategoryFor(emotion: string): string
  {
    "Face: " + emotion
  }

  /** The returned tracks with the volumes Face DJ gives them by position. */
  function Staggered(mix: seq<MixTrack>): (r: seq<MixTrack>)
    ensures |r| == |mix|
    ensures forall k :: 0 <= k < |mix| ==>
      r[k].id == mix[k].id && r[k].title == mix[k].title && r[k].fileUrl == mix[k].fileUrl
      && r[k].volume == (if k == 0 then LeadVolume else BedVolume)
  {
    seq(|mix|, k requires 0 <= k < |mix| => mix[k].(volume := if k == 0 then LeadVolume else BedVolume))
  }

  /** The result of `capture`, and the volume updates it leaves queued. */
  datatype Captured = Captured(face: Face, pending: seq<Deferred>)

  /** `capture`. `snapshot` is the `activeSounds` the callback closed over
      when it was created (the list of the last render before the click);
      `f` is the state when the answer arrives, which other writers may
      have changed while the request was in flight. Without a webcam or a
      screenshot it returns at once; a failed request leaves the mixer
      alone because the removal comes after the request; an answer removes
      the snapshot's ids even when it carries no mix. */
  function Capture(f: Face, snapshot: seq<MixerSound>, webcam: bool, screenshot: Option<string>, resp: Response): (r: Captured)
    ensures !webcam || screenshot.None? ==> r == Captured(f, [])
    ensures webcam && screenshot.Some? ==> !r.face.isScanning
    ensures webcam && screenshot.Some? && resp.Threw? ==>
      r.face == f.(isScanning := false) && r.pending == []
    ensures webcam && screenshot.Some? && resp.Data? && resp.mix.None? ==>
      (forall x :: x in r.face.mixer.activeSounds <==>
         x in f.mixer.activeSounds && !HasId(snapshot, x.track.id))
      && r.face.mixer.currentMood == f.mixer.currentMood
      && r.face.mixer.isOpen == f.mixer.isOpen
      && r.face.player == f.player && r.face.emotion == Some(resp.emotion)
      && r.pending == [] && r.face.closed == f.closed
    ensures webcam && screenshot.Some? && resp.Data? && resp.mix.Some? ==>
      r.face.mixer.currentMood == Some(resp.emotion) && r.face.mixer.isOpen
      && Clear(f.mixer, snapshot).activeSounds <= r.face.mixer.activeSounds
      && r.face.player == SetIsPlaying(f.player, false) && r.face.emotion == Some(resp.emotion)
      && r.face.closed
      && r.pending == QueueOf(Staggered(resp.mix.value))
  {
    if !webcam || screenshot.None? then Captured(f, [])
    else
      match resp
      case Threw => Captured(f.(isScanning := false), [])
      case Data(e, None) => Captured(Face(false, Some(e), f.player, Clear(f.mixer, snapshot), f.closed), [])
      case Data(e, Some(m)) =>
        Captured(Face(false, Some(e), SetIsPlaying(f.player, false), Refill(Clear(f.mixer, snapshot), e, m), true),
                 QueueOf(Staggered(m)))
  }

  /** `activeSounds.forEach(s => removeSound(s.id))` over the captured
      `snapshot`, run against the store `st` as it is now: a layer survives
      exactly when it is in the store and the snapshot has no layer with
      its id. */
  function Clear(st: MixerState, snapshot: seq<MixerSound>): (r: MixerState)
    ensures r.isOpen == st.isOpen && r.currentMood == st.currentMood
    ensures forall x :: x in r.activeSounds <==> x in st.activeSounds && !HasId(snapshot, x.track.id)
  {
    forall x | x in st.activeSounds && !HasId(snapshot, x.track.id)
      ensures x in RemoveEach(st, snapshot).activeSounds
    {
      RemoveEachKeeps(st, snapshot, x);
    }
    RemoveEach(st, snapshot)
  }

  /** When nothing changed the mixer during the request, the clear empties
      it. */
  lemma ClearOfCurrentListEmpties(st: MixerState)
    ensures Clear(st, st.activeSounds).activeSounds == []
  {
    RemoveEachOfSelfEmpties(st);
  }

  /** Mood, the staggered tracks under "Face: <emotion>", and the panel
      opened. The source opens the panel after the adds; the adds never
      touch `isOpen`, so opening first gives the same store. */
  function Refill(st: MixerState, e: string, m: seq<MixTrack>): (r: MixerState)
    ensures r.currentMood == Some(e) && r.isOpen
    ensures st.activeSounds <= r.activeSounds
  {
    AddEach(SetMixerOpen(SetMood(st, Some(e)), true), Staggered(m), CategoryFor(e))
  }

  /** `after` is `kept` followed by the mix's tracks, in order, under
      "Face: <emotion>", the first at 0.8 and every other at 0.4. */
  predicate LandsAfter(after: seq<MixerSound>, kept: seq<MixerSound>, e: string, mix: seq<MixTrack>)
  {
    |after| == |kept| + |mix| && after[..|kept|] == kept
    && forall k :: 0 <= k < |mix| ==>
      after[|kept| + k].track == AsTrack(mix[k], CategoryFor(e))
      && after[|kept| + k].volume == (if k == 0 then LeadVolume else BedVolume)
  }

  /** Refilling a store that has none of the mix's ids and then running the
      staggered updates lands the mix after the store's layers. */
  lemma RefillLands(st: MixerState, e: string, mix: seq<MixTrack>)
    requires DistinctIds(mix)
    requires forall k :: 0 <= k < |mix| ==> !HasId(st.activeSounds, mix[k].id)
    ensures LandsAfter(Flush(Refill(st, e, mix), QueueOf(Staggered(mix))).activeSounds, st.activeSounds, e, mix)
  {
    var cat := CategoryFor(e);
    var shown := SetMixerOpen(SetMood(st, Some(e)), true);
    var sm := Staggered(mix);
    assert DistinctIds(sm);
    assert shown.activeSounds == st.activeSounds;
    ApplyMix(shown, sm, cat);
    var after := Flush(Refill(st, e, mix), QueueOf(sm)).activeSounds;
    StaggeredLands(after, st.activeSounds, Returned(sm, cat), e, mix);
  }

  /** The position-by-position reading of `kept + Returned(...)`. */
  lemma StaggeredLands(after: seq<MixerSound>, kept: seq<MixerSound>, ret: seq<MixerSound>, e: string, mix: seq<MixTrack>)
    requires ret == Returned(Staggered(mix), CategoryFor(e))
    requires after == kept + ret
    ensures LandsAfter(after, kept, e, mix)
  {
    var sm := Staggered(mix);
    forall k | 0 <= k < |mix|
      ensures after[|kept| + k].track == AsTrack(mix[k], CategoryFor(e))
      ensures after[|kept| + k].volume == (if k == 0 then LeadVolume else BedVolume)
    {
      assert after[|kept| + k] == ret[k];
      assert AsTrack(sm[k], CategoryFor(e)) == AsTrack(mix[k], CategoryFor(e));
    }
    assert after[..|kept|] == kept;
  }

  /** After the deferred updates, a mix with distinct ids, none of them
      among the layers that survived the clear, follows those layers: its
      tracks in order, under "Face: <emotion>", the first at 0.8 and every
      other at 0.4. */
  lemma CaptureLayersMix(f: Face, snapshot: seq<MixerSound>, shot: string, e: string, mix: seq<MixTrack>)
    requires DistinctIds(mix)
    requires forall k :: 0 <= k < |mix| ==> !HasId(Clear(f.mixer, snapshot).activeSounds, mix[k].id)
    ensures var c := Capture(f, snapshot, true, Some(shot), Data(e, Some(mix)));
      LandsAfter(Flush(c.face.mixer, c.pending).activeSounds, Clear(f.mixer, snapshot).activeSounds, e, mix)
  {
    RefillLands(Clear(f.mixer, snapshot), e, mix);
  }

  /** When the mixer is still the captured list, a mix with distinct ids
      becomes exactly its tracks: nothing survives the clear. */
  lemma CaptureOfCurrentListLayersMix(f: Face, shot: string, e: string, mix: seq<MixTrack>)
    requires DistinctIds(mix)
    ensures var c := Capture(f, f.mixer.activeSounds, true, Some(shot), Data(e, Some(mix)));
      LandsAfter(Flush(c.face.mixer, c.pending).activeSounds, [], e, mix)
  {
    ClearOfCurrentListEmpties(f.mixer);
    RefillLands(Clear(f.mixer, f.mixer.activeSounds), e, mix);
  }

  /** A layer another writer adds while the request is in flight is not in
      the captured list, so an answer without a mix leaves exactly that
      layer. */
  lemma LayerAddedDuringRequestSurvives(f: Face, shot: string, e: string, t: Track)
    requires !HasId(f.mixer.activeSounds, t.id)
    ensures var g := f.(mixer := AddSound(f.mixer, t));
      var c := Capture(g, f.mixer.activeSounds, true, Some(shot), Data(e, None));
      forall x :: x in c.face.mixer.activeSounds <==> x == MixerSound(t, DefaultVolume)
  {
    OnlySurvivor(f.mixer, t);
  }

  /** With a mix in the answer, the layer added during the request is the
      only survivor of the clear and the mix lands after it. */
  lemma LayerAddedDuringRequestLeadsTheMix(f: Face, shot: string, e: string, t: Track, mix: seq<MixTrack>)
    requires !HasId(f.mixer.activeSounds, t.id)
    requires DistinctIds(mix) && forall k :: 0 <= k < |mix| ==> mix[k].id != t.id
    ensures var g := f.(mixer := AddSound(f.mixer, t));
      var kept := Clear(g.mixer, f.mixer.activeSounds).activeSounds;
      var c := Capture(g, f.mixer.activeSounds, true, Some(shot), Data(e, Some(mix)));
      (forall x :: x in kept <==> x == MixerSound(t, DefaultVolume))
      && LandsAfter(Flush(c.face.mixer, c.pending).activeSounds, kept, e, mix)
  {
    var g := f.(mixer := AddSound(f.mixer, t));
    var kept := Clear(g.mixer, f.mixer.activeSounds).activeSounds;
    OnlySurvivor(f.mixer, t);
    forall k | 0 <= k < |mix| ensures !HasId(kept, mix[k].id) {
      NoOtherId(kept, MixerSound(t, DefaultVolume), mix[k].id);
    }
    CaptureLayersMix(g, f.mixer.activeSounds, shot, e, mix);
  }

  /** Clearing the captured list after one fresh layer was added leaves
      that layer alone. */
  lemma OnlySurvivor(st: MixerState, t: Track)
    requires !HasId(st.activeSounds, t.id)
    ensures forall x :: x in Clear(AddSound(st, t), st.activeSounds).activeSounds <==> x == MixerSound(t, DefaultVolume)
  {
    assert AddSound(st, t).activeSounds == st.activeSounds + [MixerSound(t, DefaultVolume)];
  }

  lemma NoOtherId(kept: seq<MixerSound>, b: MixerSound, id: string)
    requires forall x :: x in kept ==> x == b
    requires b.track.id != id
    ensures !HasId(kept, id)
  {
    assert forall i :: 0 <= i < |kept| ==> kept[i] in kept;
  }
}
