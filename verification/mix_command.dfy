/** The steps every mix applier shares: clearing the mixer by removing each
    sound of a snapshot, adding a list of returned tracks, and the queue of
    volume changes that the components schedule 100 ms after the adds
    (modelled as a queue flushed, in order, once the adds are done). */
module MixCommand {
  import opened Common
  import opened PlayerStore
  import opened MixerStore

  /** One entry of a mix as the backend returns it. */
  datatype MixTrack = MixTrack(id: string, title: string, fileUrl: string, volume: real)

  /** A volume change scheduled for later. */
  datatype Deferred = Deferred(id: string, volume: real)

  /** The track a mix entry is added as, under the given category label. */
  function AsTrack(m: MixTrack, category: string): Track
  {
    Track(m.id, m.title, m.fileUrl, category, None)
  }

  function Ids(sounds: seq<MixerSound>): seq<string>
  {
    if |sounds| == 0 then [] else [sounds[0].track.id] + Ids(sounds[1..])
  }

  predicate DistinctIds(mix: seq<MixTrack>)
  {
    forall i, j :: 0 <= i < j < |mix| ==> mix[i].id != mix[j].id
  }

  // ---------------------------------------------------------------------
  // Clearing through a snapshot

  /** `snapshot.forEach(s => removeSound(s.id))`. */
  function RemoveEach(st: MixerState, snapshot: seq<MixerSound>): (r: MixerState)
    decreases |snapshot|
    ensures r.isOpen == st.isOpen && r.currentMood == st.currentMood
    ensures forall x :: x in r.activeSounds ==> x in st.activeSounds
    ensures forall x, k :: x in r.activeSounds && 0 <= k < |snapshot| ==> x.track.id != snapshot[k].track.id
  {
    if |snapshot| == 0 then st
    else
      var r := RemoveEach(RemoveSound(st, snapshot[0].track.id), snapshot[1..]);
      assert forall k :: 1 <= k < |snapshot| ==> snapshot[k] == snapshot[1..][k - 1];
      r
  }

  /** Removing every sound of the current list empties the mixer but keeps
      its mood and visibility. */
  lemma RemoveEachOfSelfEmpties(st: MixerState)
    ensures RemoveEach(st, st.activeSounds).activeSounds == []
    ensures RemoveEach(st, st.activeSounds).currentMood == st.currentMood
    ensures RemoveEach(st, st.activeSounds).isOpen == st.isOpen
  {
    var r := RemoveEach(st, st.activeSounds);
    NothingSurvives(st.activeSounds, r.activeSounds);
  }

  lemma NothingSurvives(sounds: seq<MixerSound>, r: seq<MixerSound>)
    requires forall x :: x in r ==> x in sounds
    requires forall x, k :: x in r && 0 <= k < |sounds| ==> x.track.id != sounds[k].track.id
    ensures r == []
  {
    if r != [] {
      HeadHasIndex(sounds, r);
      assert false;
    }
  }

  /** The converse of `RemoveEach`'s contract: a layer whose id the
      snapshot lacks survives the removals. */
  lemma {:induction false} RemoveEachKeeps(st: MixerState, snapshot: seq<MixerSound>, x: MixerSound)
    requires x in st.activeSounds && !HasId(snapshot, x.track.id)
    ensures x in RemoveEach(st, snapshot).activeSounds
    decreases |snapshot|
  {
    if |snapshot| > 0 {
      assert snapshot[0].track.id != x.track.id;
      var s1 := RemoveSound(st, snapshot[0].track.id);
      RemoveEachKeeps(s1, snapshot[1..], x);
    }
  }

  lemma HeadHasIndex(sounds: seq<MixerSound>, r: seq<MixerSound>)
    requires r != []
    requires forall x :: x in r ==> x in sounds
    ensures exists k :: 0 <= k < |sounds| && sounds[k] == r[0]
  {
    assert r[0] in r;
  }

  // ---------------------------------------------------------------------
  // Adding the returned tracks

  /** `for (const track of mix) addSound({ ...track, category })`. */
  function AddEach(st: MixerState, mix: seq<MixTrack>, category: string): (r: MixerState)
    decreases |mix|
    ensures r.isOpen == st.isOpen && r.currentMood == st.currentMood
    ensures st.activeSounds <= r.activeSounds
  {
    if |mix| == 0 then st
    else AddEach(AddSound(st, AsTrack(mix[0], category)), mix[1..], category)
  }

  /** Every returned id ends up with a layer. */
  lemma {:induction false} AddEachCovers(st: MixerState, mix: seq<MixTrack>, category: string)
    ensures forall k :: 0 <= k < |mix| ==> HasId(AddEach(st, mix, category).activeSounds, mix[k].id)
    decreases |mix|
  {
    if |mix| > 0 {
      var s1 := AddSound(st, AsTrack(mix[0], category));
      var r := AddEach(s1, mix[1..], category);
      AddEachCovers(s1, mix[1..], category);
      HasIdKept(s1.activeSounds, r.activeSounds, mix[0].id);
      forall k | 1 <= k < |mix| ensures HasId(r.activeSounds, mix[k].id) {
        assert mix[k] == mix[1..][k - 1];
      }
    }
  }

  /** Every layer past `before` in `after` is a returned track at the
      default volume. */
  predicate FromMix(before: seq<MixerSound>, after: seq<MixerSound>, mix: seq<MixTrack>, category: string)
  {
    forall i :: |before| <= i < |after| ==> IsLayerOf(after[i], mix, category)
  }

  predicate IsLayerOf(s: MixerSound, mix: seq<MixTrack>, category: string)
  {
    exists k :: 0 <= k < |mix| && s == MixerSound(AsTrack(mix[k], category), DefaultVolume)
  }

  /** Every new layer is a returned track at the default volume. */
  lemma {:induction false} AddEachFromMix(st: MixerState, mix: seq<MixTrack>, category: string)
    ensures FromMix(st.activeSounds, AddEach(st, mix, category).activeSounds, mix, category)
    decreases |mix|
  {
    if |mix| > 0 {
      var s1 := AddSound(st, AsTrack(mix[0], category));
      var r := AddEach(s1, mix[1..], category);
      AddEachFromMix(s1, mix[1..], category);
      forall i | |st.activeSounds| <= i < |r.activeSounds|
        ensures IsLayerOf(r.activeSounds[i], mix, category)
      {
        if i < |s1.activeSounds| {
          assert r.activeSounds[i] == s1.activeSounds[i];
          assert r.activeSounds[i] == MixerSound(AsTrack(mix[0], category), DefaultVolume);
        } else {
          assert IsLayerOf(r.activeSounds[i], mix[1..], category);
          var k :| 0 <= k < |mix[1..]| && r.activeSounds[i] == MixerSound(AsTrack(mix[1..][k], category), DefaultVolume);
          assert mix[1..][k] == mix[k + 1];
        }
      }
    }
  }

  /** Adding keeps ids unique. */
  lemma {:induction false} AddEachKeepsUnique(st: MixerState, mix: seq<MixTrack>, category: string)
    requires UniqueIds(st.activeSounds)
    ensures UniqueIds(AddEach(st, mix, category).activeSounds)
    decreases |mix|
  {
    if |mix| > 0 {
      AddEachKeepsUnique(AddSound(st, AsTrack(mix[0], category)), mix[1..], category);
    }
  }

  function Layers(mix: seq<MixTrack>, category: string): (r: seq<MixerSound>)
    ensures |r| == |mix|
    ensures forall k :: 0 <= k < |mix| ==> r[k] == MixerSound(AsTrack(mix[k], category), DefaultVolume)
  {
    if |mix| == 0 then [] else [MixerSound(AsTrack(mix[0], category), DefaultVolume)] + Layers(mix[1..], category)
  }

  /** Tracks with fresh, pairwise distinct ids are appended one layer each,
      in response order. */
  lemma {:induction false} AddEachFresh(st: MixerState, mix: seq<MixTrack>, category: string)
    requires DistinctIds(mix)
    requires forall k :: 0 <= k < |mix| ==> !HasId(st.activeSounds, mix[k].id)
    ensures AddEach(st, mix, category).activeSounds == st.activeSounds + Layers(mix, category)
    decreases |mix|
  {
    if |mix| > 0 {
      var t := AsTrack(mix[0], category);
      var s1 := AddSound(st, t);
      assert !HasId(st.activeSounds, mix[0].id);
      TailStaysFresh(st.activeSounds, s1.activeSounds, mix);
      AddEachFresh(s1, mix[1..], category);
      LayersHead(mix, category);
      AppendInTwoSteps(st.activeSounds, s1.activeSounds, AddEach(s1, mix[1..], category).activeSounds,
        MixerSound(t, DefaultVolume), Layers(mix[1..], category), Layers(mix, category));
    }
  }

  lemma LayersHead(mix: seq<MixTrack>, category: string)
    requires |mix| > 0
    ensures Layers(mix, category) == [MixerSound(AsTrack(mix[0], category), DefaultVolume)] + Layers(mix[1..], category)
  {
  }

  lemma AppendInTwoSteps<T>(a: seq<T>, b: seq<T>, c: seq<T>, x: T, rest: seq<T>, all: seq<T>)
    requires b == a + [x] && c == b + rest && all == [x] + rest
    ensures c == a + all
  {
  }

  lemma TailStaysFresh(before: seq<MixerSound>, after: seq<MixerSound>, mix: seq<MixTrack>)
    requires |mix| > 0 && DistinctIds(mix)
    requires forall k :: 0 <= k < |mix| ==> !HasId(before, mix[k].id)
    requires |after| == |before| + 1 && before <= after && after[|before|].track.id == mix[0].id
    ensures DistinctIds(mix[1..])
    ensures forall k :: 0 <= k < |mix[1..]| ==> !HasId(after, mix[1..][k].id)
  {
    forall k, i | 0 <= k < |mix[1..]| && 0 <= i < |after| ensures after[i].track.id != mix[1..][k].id {
      assert mix[1..][k] == mix[k + 1];
      if i < |before| {
        assert after[i] == before[i];
      }
    }
    forall i, j | 0 <= i < j < |mix[1..]| ensures mix[1..][i].id != mix[1..][j].id {
      assert mix[1..][i] == mix[i + 1] && mix[1..][j] == mix[j + 1];
    }
  }

  // ---------------------------------------------------------------------
  // The deferred volume queue

  /** Runs the queued updates in the order they were scheduled. */
  function Flush(st: MixerState, queue: seq<Deferred>): (r: MixerState)
    decreases |queue|
    ensures r.isOpen == st.isOpen && r.currentMood == st.currentMood
    ensures |r.activeSounds| == |st.activeSounds|
    ensures forall i :: 0 <= i < |st.activeSounds| ==> r.activeSounds[i].track == st.activeSounds[i].track
    ensures forall i :: 0 <= i < |st.activeSounds| ==>
      r.activeSounds[i].volume == LastQueued(queue, st.activeSounds[i].track.id, st.activeSounds[i].volume)
  {
    if |queue| == 0 then st
    else Flush(UpdateVolume(st, queue[0].id, queue[0].volume), queue[1..])
  }

  /** The volume a channel ends with: the last value queued for its id, or
      the one it had. */
  function LastQueued(queue: seq<Deferred>, id: string, current: real): real
    decreases |queue|
  {
    if |queue| == 0 then current
    else LastQueued(queue[1..], id, if queue[0].id == id then queue[0].volume else current)
  }

  lemma {:induction false} LastQueuedUnique(queue: seq<Deferred>, id: string, current: real, k: nat)
    requires k < |queue| && queue[k].id == id
    requires forall j :: 0 <= j < |queue| && j != k ==> queue[j].id != id
    ensures LastQueued(queue, id, current) == queue[k].volume
    decreases |queue|
  {
    if k == 0 {
      LastQueuedAbsent(queue[1..], id, queue[0].volume);
    } else {
      assert queue[1..][k - 1] == queue[k];
      forall j | 0 <= j < |queue[1..]| && j != k - 1 ensures queue[1..][j].id != id {
        assert queue[1..][j] == queue[j + 1];
      }
      LastQueuedUnique(queue[1..], id, current, k - 1);
    }
  }

  lemma {:induction false} LastQueuedAbsent(queue: seq<Deferred>, id: string, current: real)
    requires forall j :: 0 <= j < |queue| ==> queue[j].id != id
    ensures LastQueued(queue, id, current) == current
    decreases |queue|
  {
    if |queue| > 0 {
      assert forall j :: 0 <= j < |queue[1..]| ==> queue[1..][j] == queue[j + 1];
      LastQueuedAbsent(queue[1..], id, current);
    }
  }

  /** The queue `setTimeout(() => updateVolume(track.id, track.volume))`
      builds, one entry per returned track. */
  function QueueOf(mix: seq<MixTrack>): (q: seq<Deferred>)
    ensures |q| == |mix|
    ensures forall k :: 0 <= k < |mix| ==> q[k] == Deferred(mix[k].id, mix[k].volume)
  {
    if |mix| == 0 then [] else [Deferred(mix[0].id, mix[0].volume)] + QueueOf(mix[1..])
  }

  /** The layers as they end up once their deferred volumes have landed. */
  function Returned(mix: seq<MixTrack>, category: string): (r: seq<MixerSound>)
    ensures |r| == |mix|
    ensures forall k :: 0 <= k < |mix| ==> r[k] == MixerSound(AsTrack(mix[k], category), mix[k].volume)
  {
    if |mix| == 0 then [] else [MixerSound(AsTrack(mix[0], category), mix[0].volume)] + Returned(mix[1..], category)
  }

  /** With pairwise distinct ids, flushing the response's own queue after
      the adds leaves every new layer at its returned volume and every
      earlier layer as it was. */
  lemma FlushReturnedVolumes(st: MixerState, before: seq<MixerSound>, mix: seq<MixTrack>, category: string)
    requires DistinctIds(mix)
    requires forall k :: 0 <= k < |mix| ==> !HasId(before, mix[k].id)
    requires st.activeSounds == before + Layers(mix, category)
    ensures Flush(st, QueueOf(mix)).activeSounds == before + Returned(mix, category)
  {
    var q := QueueOf(mix);
    var r := Flush(st, q).activeSounds;
    forall i | 0 <= i < |before| ensures r[i] == before[i] {
      forall j | 0 <= j < |q| ensures q[j].id != before[i].track.id {
        assert !HasId(before, mix[j].id);
      }
      LastQueuedAbsent(q, before[i].track.id, before[i].volume);
    }
    forall k | 0 <= k < |mix| ensures r[|before| + k] == MixerSound(AsTrack(mix[k], category), mix[k].volume) {
      LastQueuedUnique(q, mix[k].id, DefaultVolume, k);
    }
    assert r == before + Returned(mix, category);
  }

  /** Adding fresh, pairwise distinct tracks and then running their deferred
      volume updates appends exactly one layer per track, in response order,
      at its returned volume; earlier layers are untouched. */
  lemma ApplyMix(st: MixerState, mix: seq<MixTrack>, category: string)
    requires DistinctIds(mix)
    requires forall k :: 0 <= k < |mix| ==> !HasId(st.activeSounds, mix[k].id)
    ensures Flush(AddEach(st, mix, category), QueueOf(mix)).activeSounds == st.activeSounds + Returned(mix, category)
  {
    AddEachFresh(st, mix, category);
    FlushReturnedVolumes(AddEach(st, mix, category), st.activeSounds, mix, category);
  }
}
