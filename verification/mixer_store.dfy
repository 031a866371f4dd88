/** The background-layer store: an ordered list of looping channels keyed by
    track id, the mixer panel's visibility and an optional mood label. */
module MixerStore {
  import opened Common
  import opened PlayerStore

  /** Volume given to a freshly added layer. */
  const DefaultVolume: real := 0.7

  /** A track layered into the mixer together with its own volume. */
  datatype MixerSound = MixerSound(track: Track, volume: real)

  datatype MixerState = MixerState(activeSounds: seq<MixerSound>, isOpen: bool, currentMood: Option<string>)

  const Initial := MixerState([], false, None)

  predicate HasId(sounds: seq<MixerSound>, id: string)
  {
    exists i :: 0 <= i < |sounds| && sounds[i].track.id == id
  }

  /** A channel found in a list is found in any extension of it. */
  lemma HasIdKept(a: seq<MixerSound>, b: seq<MixerSound>, id: string)
    requires a <= b
    ensures HasId(a, id) ==> HasId(b, id)
  {
    if HasId(a, id) {
      var i :| 0 <= i < |a| && a[i].track.id == id;
      assert b[i] == a[i];
    }
  }

  /** At most one channel per track id. */
  predicate UniqueIds(sounds: seq<MixerSound>)
  {
    forall i, j :: 0 <= i < j < |sounds| ==> sounds[i].track.id != sounds[j].track.id
  }

  /** The store as created: no layers, panel closed, no mood. */
  lemma InitialState()
    ensures Initial.activeSounds == [] && !Initial.isOpen && Initial.currentMood == None
    ensures UniqueIds(Initial.activeSounds)
  {
  }

  /** `Array.prototype.find` by id: the first channel carrying `id`. */
  function FindFrom(sounds: seq<MixerSound>, id: string, from: nat): (r: Option<nat>)
    decreases |sounds| - from
    ensures r.Some? ==> from <= r.value < |sounds| && sounds[r.value].track.id == id
    ensures r.None? ==> forall k :: from <= k < |sounds| ==> sounds[k].track.id != id
  {
    if from >= |sounds| then None
    else if sounds[from].track.id == id then Some(from)
    else FindFrom(sounds, id, from + 1)
  }

  /** Adds `t` at volume 0.7 at the end, unless a channel with its id exists. */
  function AddSound(st: MixerState, t: Track): (r: MixerState)
    ensures HasId(st.activeSounds, t.id) ==> r == st
    ensures !HasId(st.activeSounds, t.id) ==>
      r.activeSounds == st.activeSounds + [MixerSound(t, DefaultVolume)]
      && r.isOpen == st.isOpen && r.currentMood == st.currentMood
    ensures HasId(r.activeSounds, t.id)
    ensures UniqueIds(st.activeSounds) ==> UniqueIds(r.activeSounds)
  {
    if FindFrom(st.activeSounds, t.id, 0).Some? then st
    else
      var r := st.(activeSounds := st.activeSounds + [MixerSound(t, DefaultVolume)]);
      assert r.activeSounds[|st.activeSounds|].track.id == t.id;
      r
  }

  /** `filter(s => s.id !== id)`. */
  function Without(sounds: seq<MixerSound>, id: string): (r: seq<MixerSound>)
    ensures |r| <= |sounds|
    ensures forall x :: x in r <==> x in sounds && x.track.id != id
    ensures !HasId(r, id)
    ensures !HasId(sounds, id) ==> r == sounds
    ensures UniqueIds(sounds) ==> UniqueIds(r)
  {
    if |sounds| == 0 then []
    else
      var rest := Without(sounds[1..], id);
      if sounds[0].track.id == id then
        DropHead(sounds, id, rest);
        rest
      else
        KeepHead(sounds, id, rest);
        [sounds[0]] + rest
  }

  /** The step of `Without` when the head carries the id. */
  lemma DropHead(sounds: seq<MixerSound>, id: string, rest: seq<MixerSound>)
    requires |sounds| > 0 && sounds[0].track.id == id
    requires forall x :: x in rest <==> x in sounds[1..] && x.track.id != id
    requires UniqueIds(sounds[1..]) ==> UniqueIds(rest)
    ensures forall x :: x in rest <==> x in sounds && x.track.id != id
    ensures HasId(sounds, id)
    ensures UniqueIds(sounds) ==> UniqueIds(rest)
  {
    assert sounds == [sounds[0]] + sounds[1..];
    if UniqueIds(sounds) {
      TailUnique(sounds);
    }
  }

  /** The step of `Without` when the head is kept. */
  lemma KeepHead(sounds: seq<MixerSound>, id: string, rest: seq<MixerSound>)
    requires |sounds| > 0 && sounds[0].track.id != id
    requires forall x :: x in rest <==> x in sounds[1..] && x.track.id != id
    requires !HasId(rest, id)
    requires !HasId(sounds[1..], id) ==> rest == sounds[1..]
    requires UniqueIds(sounds[1..]) ==> UniqueIds(rest)
    ensures forall x :: x in [sounds[0]] + rest <==> x in sounds && x.track.id != id
    ensures !HasId([sounds[0]] + rest, id)
    ensures !HasId(sounds, id) ==> [sounds[0]] + rest == sounds
    ensures UniqueIds(sounds) ==> UniqueIds([sounds[0]] + rest)
  {
    assert sounds == [sounds[0]] + sounds[1..];
    ConsKeepsOut(sounds[0], rest, id);
    if HasId(sounds[1..], id) {
      var i :| 0 <= i < |sounds[1..]| && sounds[1..][i].track.id == id;
      assert sounds[i + 1] == sounds[1..][i];
    }
    if UniqueIds(sounds) {
      TailUnique(sounds);
      HeadIdNotInTail(sounds, rest);
      ConsUnique(sounds[0], rest);
    }
  }

  lemma ConsKeepsOut(x: MixerSound, rest: seq<MixerSound>, id: string)
    requires x.track.id != id && !HasId(rest, id)
    ensures !HasId([x] + rest, id)
  {
    forall i | 0 <= i < |[x] + rest| ensures ([x] + rest)[i].track.id != id {
      if i > 0 {
        assert ([x] + rest)[i] == rest[i - 1];
      }
    }
  }

  lemma TailUnique(sounds: seq<MixerSound>)
    requires |sounds| > 0 && UniqueIds(sounds)
    ensures UniqueIds(sounds[1..])
  {
    forall i, j | 0 <= i < j < |sounds[1..]|
      ensures sounds[1..][i].track.id != sounds[1..][j].track.id
    {
      assert sounds[1..][i] == sounds[i + 1] && sounds[1..][j] == sounds[j + 1];
    }
  }

  lemma ConsUnique(x: MixerSound, rest: seq<MixerSound>)
    requires UniqueIds(rest)
    requires forall j :: 0 <= j < |rest| ==> rest[j].track.id != x.track.id
    ensures UniqueIds([x] + rest)
  {
    var r := [x] + rest;
    forall i, j | 0 <= i < j < |r| ensures r[i].track.id != r[j].track.id {
      assert r[j] == rest[j - 1];
      if i > 0 {
        assert r[i] == rest[i - 1];
      }
    }
  }

  lemma HeadIdNotInTail(sounds: seq<MixerSound>, rest: seq<MixerSound>)
    requires |sounds| > 0
    requires forall x :: x in rest ==> x in sounds[1..]
    requires UniqueIds(sounds)
    ensures forall j :: 0 <= j < |rest| ==> rest[j].track.id != sounds[0].track.id
  {
    forall j | 0 <= j < |rest| ensures rest[j].track.id != sounds[0].track.id {
      assert rest[j] in sounds[1..];
      var i :| 0 <= i < |sounds[1..]| && sounds[1..][i] == rest[j];
      assert sounds[i + 1] == rest[j];
    }
  }

  function RemoveSound(st: MixerState, id: string): (r: MixerState)
    ensures r.isOpen == st.isOpen && r.currentMood == st.currentMood
    ensures !HasId(r.activeSounds, id)
    ensures forall x :: x in r.activeSounds <==> x in st.activeSounds && x.track.id != id
    ensures UniqueIds(st.activeSounds) ==> UniqueIds(r.activeSounds)
  {
    st.(activeSounds := Without(st.activeSounds, id))
  }

  /** `map(s => s.id === id ? { ...s, volume } : s)`. */
  function WithVolume(sounds: seq<MixerSound>, id: string, v: real): (r: seq<MixerSound>)
    ensures |r| == |sounds|
    ensures forall i :: 0 <= i < |sounds| ==>
      r[i].track == sounds[i].track
      && r[i].volume == (if sounds[i].track.id == id then v else sounds[i].volume)
  {
    if |sounds| == 0 then []
    else
      [if sounds[0].track.id == id then MixerSound(sounds[0].track, v) else sounds[0]]
      + WithVolume(sounds[1..], id, v)
  }

  /** Writes `v` exactly, unclamped, into every channel carrying `id`. */
  function UpdateVolume(st: MixerState, id: string, v: real): (r: MixerState)
    ensures r.isOpen == st.isOpen && r.currentMood == st.currentMood
    ensures |r.activeSounds| == |st.activeSounds|
    ensures forall i :: 0 <= i < |st.activeSounds| ==>
      r.activeSounds[i].track == st.activeSounds[i].track
      && r.activeSounds[i].volume == (if st.activeSounds[i].track.id == id then v else st.activeSounds[i].volume)
    ensures UniqueIds(st.activeSounds) ==> UniqueIds(r.activeSounds)
  {
    st.(activeSounds := WithVolume(st.activeSounds, id, v))
  }

  function ToggleMixer(st: MixerState): (r: MixerState)
    ensures r.isOpen != st.isOpen
    ensures r.activeSounds == st.activeSounds && r.currentMood == st.currentMood
  {
    st.(isOpen := !st.isOpen)
  }

  function SetMixerOpen(st: MixerState, open: bool): (r: MixerState)
    ensures r.isOpen == open
    ensures r.activeSounds == st.activeSounds && r.currentMood == st.currentMood
  {
    st.(isOpen := open)
  }

  function SetMood(st: MixerState, mood: Option<string>): (r: MixerState)
    ensures r.currentMood == mood
    ensures r.activeSounds == st.activeSounds && r.isOpen == st.isOpen
  {
    st.(currentMood := mood)
  }

  /** Drops every layer and the mood; the panel stays as it was. */
  function StopAll(st: MixerState): (r: MixerState)
    ensures r.activeSounds == [] && r.currentMood == None
    ensures r.isOpen == st.isOpen
  {
    MixerState([], st.isOpen, None)
  }

  // ---------------------------------------------------------------------
  // Properties relating several actions

  /** Adding the same track twice is the same as adding it once, and the
      result holds exactly one channel for its id. */
  lemma AddSoundIdempotent(st: MixerState, t: Track)
    ensures AddSound(AddSound(st, t), t) == AddSound(st, t)
    ensures UniqueIds(st.activeSounds) ==>
      forall i, j :: (0 <= i < |AddSound(st, t).activeSounds| && 0 <= j < |AddSound(st, t).activeSounds|
                      && AddSound(st, t).activeSounds[i].track.id == t.id
                      && AddSound(st, t).activeSounds[j].track.id == t.id) ==> i == j
  {
  }

  /** Removing the channel at position `k` leaves every other channel in
      its original order. */
  lemma RemoveKeepsOrder(sounds: seq<MixerSound>, k: nat)
    requires UniqueIds(sounds) && k < |sounds|
    ensures Without(sounds, sounds[k].track.id) == sounds[..k] + sounds[k + 1..]
  {
    var id := sounds[k].track.id;
    PrefixLacksId(sounds, k);
    SuffixLacksId(sounds, k);
    RemoveOnly(sounds, k, id);
  }

  /** Removing an id that only position `k` carries. */
  lemma RemoveOnly(sounds: seq<MixerSound>, k: nat, id: string)
    requires k < |sounds| && sounds[k].track.id == id
    requires !HasId(sounds[..k], id) && !HasId(sounds[k + 1..], id)
    ensures Without(sounds, id) == sounds[..k] + sounds[k + 1..]
  {
    assert sounds == sounds[..k] + ([sounds[k]] + sounds[k + 1..]);
    RemoveBetween(sounds, sounds[..k], sounds[k], sounds[k + 1..], id);
  }

  /** Removing the one channel with the id from the middle. */
  lemma RemoveBetween(whole: seq<MixerSound>, a: seq<MixerSound>, x: MixerSound, b: seq<MixerSound>, id: string)
    requires whole == a + ([x] + b)
    requires !HasId(a, id) && !HasId(b, id) && x.track.id == id
    ensures Without(whole, id) == a + b
  {
    WithoutAppend(a, [x] + b, id);
    WithoutAppend([x], b, id);
    assert Without([x], id) == [];
  }

  /** With unique ids, no channel before position `k` carries its id... */
  lemma PrefixLacksId(sounds: seq<MixerSound>, k: nat)
    requires UniqueIds(sounds) && k < |sounds|
    ensures !HasId(sounds[..k], sounds[k].track.id)
  {
    forall i | 0 <= i < k ensures sounds[..k][i].track.id != sounds[k].track.id {
      assert sounds[..k][i] == sounds[i];
    }
  }

  /** ... and none after it. */
  lemma SuffixLacksId(sounds: seq<MixerSound>, k: nat)
    requires UniqueIds(sounds) && k < |sounds|
    ensures !HasId(sounds[k + 1..], sounds[k].track.id)
  {
    var tail := sounds[k + 1..];
    forall i | 0 <= i < |tail| ensures tail[i].track.id != sounds[k].track.id {
      assert tail[i] == sounds[k + 1 + i];
    }
  }

  /** Removing from a concatenation removes from each part. */
  lemma {:induction false} WithoutAppend(a: seq<MixerSound>, b: seq<MixerSound>, id: string)
    ensures Without(a + b, id) == Without(a, id) + Without(b, id)
    decreases |a|
  {
    if |a| == 0 {
      assert a + b == b;
    } else {
      assert (a + b)[0] == a[0] && (a + b)[1..] == a[1..] + b;
      WithoutAppend(a[1..], b, id);
    }
  }

  /** The volume update touches exactly the addressed channel when ids are
      unique. */
  lemma UpdateVolumeAt(st: MixerState, k: nat, v: real)
    requires UniqueIds(st.activeSounds) && k < |st.activeSounds|
    ensures UpdateVolume(st, st.activeSounds[k].track.id, v).activeSounds
         == st.activeSounds[k := MixerSound(st.activeSounds[k].track, v)]
  {
  }

  /** Every store action, as issued by a component. */
  datatype Action =
    | Add(track: Track)
    | Remove(id: string)
    | Volume(id: string, v: real)
    | Toggle
    | Open(open: bool)
    | Mood(mood: Option<string>)
    | Stop

  function Apply(st: MixerState, a: Action): MixerState
  {
    match a
    case Add(t) => AddSound(st, t)
    case Remove(id) => RemoveSound(st, id)
    case Volume(id, v) => UpdateVolume(st, id, v)
    case Toggle => ToggleMixer(st)
    case Open(o) => SetMixerOpen(st, o)
    case Mood(m) => SetMood(st, m)
    case Stop => StopAll(st)
  }

  function ApplyAll(st: MixerState, actions: seq<Action>): MixerState
    decreases |actions|
  {
    if |actions| == 0 then st else ApplyAll(Apply(st, actions[0]), actions[1..])
  }

  /** No sequence of store actions can produce two channels with one id. */
  lemma {:induction false} ActionsPreserveUniqueIds(st: MixerState, actions: seq<Action>)
    requires UniqueIds(st.activeSounds)
    ensures UniqueIds(ApplyAll(st, actions).activeSounds)
    decreases |actions|
  {
    if |actions| > 0 {
      ActionsPreserveUniqueIds(Apply(st, actions[0]), actions[1..]);
    }
  }

  /** Add a layer, turn it down, remove it: the mixer is empty again. */
  lemma AddUpdateRemoveScenario(t: Track)
    ensures ApplyAll(Initial, [Add(t), Volume(t.id, 0.3), Remove(t.id)]).activeSounds == []
  {
    var actions := [Add(t), Volume(t.id, 0.3), Remove(t.id)];
    var s1 := AddSound(Initial, t);
    assert s1.activeSounds == [MixerSound(t, DefaultVolume)];
    var s2 := UpdateVolume(s1, t.id, 0.3);
    assert s2.activeSounds == [MixerSound(t, 0.3)];
    var s3 := RemoveSound(s2, t.id);
    assert s3.activeSounds == [];
    assert actions[1..] == [Volume(t.id, 0.3), Remove(t.id)];
    assert actions[1..][1..] == [Remove(t.id)];
    assert ApplyAll(Initial, actions) == ApplyAll(s1, actions[1..]);
    assert ApplyAll(s1, actions[1..]) == ApplyAll(s2, actions[1..][1..]);
    assert ApplyAll(s2, actions[1..][1..]) == ApplyAll(s3, []);
  }
}
