/** The headless multi-track engine: one looping channel per mixer layer,
    keyed by track id. Playback is modelled by the commands a channel issues
    to its audio element, not by sound. */
module MixerEngine {
  import opened Common
  import opened PlayerStore
  import opened MixerStore

  /** What a channel has told its audio element so far. */
  datatype Element = Element(src: string, loop: bool, volume: real, playAttempts: nat)

  /** A rendered channel. `element` is None when the layer has no locator
      and nothing is rendered; `errorsLogged` counts reported play failures;
      `threw` records that one of its effects threw. */
  datatype Channel = Channel(id: string, element: Option<Element>, errorsLogged: nat, threw: bool)

  /** How a `play()` promise settled. */
  datatype PlayOutcome = Played | Rejected(name: string)

  /** The values `HTMLMediaElement.volume` accepts; assigning any other
      throws an IndexSizeError and leaves the volume as it was. */
  predicate InRange(v: real)
  {
    0.0 <= v <= 1.0
  }

  /** The volume of a freshly created media element. */
  const ElementDefaultVolume: real := 1.0

  /** A channel mounting for `s`: a layer without a locator renders nothing
      and never plays. Otherwise the element loops and takes the layer
      volume, then is asked to play once; a volume outside [0, 1] makes the
      assignment throw, so the effect stops before `play()` and the element
      keeps its default volume. */
  function Mount(s: MixerSound): (c: Channel)
    ensures c.id == s.track.id && c.errorsLogged == 0
    ensures c.element.None? <==> s.track.fileUrl == ""
    ensures c.element.None? ==> !c.threw
    ensures c.element.Some? && InRange(s.volume) ==>
      c.element.value == Element(s.track.fileUrl, true, s.volume, 1) && !c.threw
    ensures c.element.Some? && !InRange(s.volume) ==>
      c.element.value == Element(s.track.fileUrl, true, ElementDefaultVolume, 0) && c.threw
  {
    if s.track.fileUrl == "" then Channel(s.track.id, None, 0, false)
    else if InRange(s.volume) then Channel(s.track.id, Some(Element(s.track.fileUrl, true, s.volume, 1)), 0, false)
    else Channel(s.track.id, Some(Element(s.track.fileUrl, true, ElementDefaultVolume, 0)), 0, true)
  }

  /** The volume effect: a rendered element follows the layer's volume,
      unless the assignment throws, which leaves the element as it was. */
  function FollowVolume(c: Channel, v: real): (r: Channel)
    ensures r.id == c.id && r.errorsLogged == c.errorsLogged
    ensures r.element.Some? <==> c.element.Some?
    ensures c.element.None? ==> r == c
    ensures r.element.Some? ==>
      r.element.value.volume == (if InRange(v) then v else c.element.value.volume)
      && r.element.value.src == c.element.value.src
      && r.element.value.loop == c.element.value.loop
      && r.element.value.playAttempts == c.element.value.playAttempts
    ensures c.element.Some? ==> r.threw == (c.threw || !InRange(v))
  {
    match c.element
    case None => c
    case Some(e) =>
      if InRange(v) then c.(element := Some(e.(volume := v)))
      else c.(threw := true)
  }

  /** The channel kept under key `id`, if any. */
  function FindChannel(cs: seq<Channel>, id: string): (r: Option<Channel>)
    ensures r.Some? ==> r.value in cs && r.value.id == id
    ensures r.None? ==> forall k :: 0 <= k < |cs| ==> cs[k].id != id
    ensures r.Some? && |cs| > 0 && cs[0].id == id ==> r.value == cs[0]
  {
    if |cs| == 0 then None
    else if cs[0].id == id then Some(cs[0])
    else FindChannel(cs[1..], id)
  }

  /** React's keyed reconciliation of `activeSounds.map(...)`: a layer whose
      key already has a channel keeps it (no new mount, so no new play
      attempt) and only its volume follows; a new key mounts a channel.
      The volume effect is run for every kept channel: when the volume has
      not changed it sets the same value again, or throws again, so the
      channel is the one React's dependency check would leave. */
  function Reconcile(cs: seq<Channel>, sounds: seq<MixerSound>): (r: seq<Channel>)
    ensures |r| == |sounds|
    ensures forall i :: 0 <= i < |sounds| ==> r[i].id == sounds[i].track.id
    ensures forall i :: 0 <= i < |sounds| && r[i].element.Some? && InRange(sounds[i].volume) ==>
      r[i].element.value.volume == sounds[i].volume
    ensures forall i :: 0 <= i < |sounds| && FindChannel(cs, sounds[i].track.id).None? ==> r[i] == Mount(sounds[i])
    ensures forall i :: 0 <= i < |sounds| && FindChannel(cs, sounds[i].track.id).Some? ==>
      var c := FindChannel(cs, sounds[i].track.id).value;
      r[i].errorsLogged == c.errorsLogged
      && (r[i].element.Some? <==> c.element.Some?)
      && (r[i].element.Some? ==> r[i].element.value.playAttempts == c.element.value.playAttempts
                                  && r[i].element.value.src == c.element.value.src)
      && (r[i].element.Some? && !InRange(sounds[i].volume) ==>
            r[i].element.value.volume == c.element.value.volume && r[i].threw)
  {
    if |sounds| == 0 then []
    else
      var found := FindChannel(cs, sounds[0].track.id);
      var head := match found
        case None => Mount(sounds[0])
        case Some(c) => FollowVolume(c, sounds[0].volume);
      var rest := Reconcile(cs, sounds[1..]);
      assert forall i :: 1 <= i < |sounds| ==> sounds[i] == sounds[1..][i - 1];
      [head] + rest
  }

  /** The settled `play()` promise: an AbortError is silently dropped, any
      other rejection is logged once; the store is never touched. */
  function Settle(c: Channel, outcome: PlayOutcome): (r: Channel)
    ensures r.id == c.id && r.element == c.element
    ensures r.errorsLogged == c.errorsLogged + (if outcome.Rejected? && outcome.name != "AbortError" then 1 else 0)
  {
    match outcome
    case Played => c
    case Rejected(name) => if name != "AbortError" then c.(errorsLogged := c.errorsLogged + 1) else c
  }

  /** Number of outcomes that are reported, that is rejections other than
      AbortError. */
  function Reported(outcomes: seq<PlayOutcome>): nat
  {
    if |outcomes| == 0 then 0
    else (if outcomes[0].Rejected? && outcomes[0].name != "AbortError" then 1 else 0) + Reported(outcomes[1..])
  }

  function SettleAll(c: Channel, outcomes: seq<PlayOutcome>): Channel
    decreases |outcomes|
  {
    if |outcomes| == 0 then c else SettleAll(Settle(c, outcomes[0]), outcomes[1..])
  }

  /** Whatever the promises do, a channel keeps its element and logs exactly
      the non-abort rejections. */
  lemma {:induction false} SettleAllLogsNonAborts(c: Channel, outcomes: seq<PlayOutcome>)
    ensures SettleAll(c, outcomes).element == c.element
    ensures SettleAll(c, outcomes).errorsLogged == c.errorsLogged + Reported(outcomes)
    decreases |outcomes|
  {
    if |outcomes| > 0 {
      SettleAllLogsNonAborts(Settle(c, outcomes[0]), outcomes[1..]);
    }
  }

  // ---------------------------------------------------------------------
  // Properties of the projection

  /** A mounted channel is well formed for the layer it renders: with a
      volume in range it plays once at that volume, otherwise its effect
      threw before playing and the element kept its default volume. */
  predicate WellFormed(c: Channel, s: MixerSound)
  {
    c.id == s.track.id
    && (c.element.None? <==> s.track.fileUrl == "")
    && (c.element.Some? ==> c.element.value.src == s.track.fileUrl && c.element.value.loop)
    && (c.element.Some? && InRange(s.volume) ==>
          c.element.value.volume == s.volume && c.element.value.playAttempts == 1 && !c.threw)
    && (c.element.Some? && !InRange(s.volume) ==>
          c.element.value.volume == ElementDefaultVolume && c.element.value.playAttempts == 0 && c.threw)
  }

  /** Starting from no channels, every layer gets its own well-formed channel:
      one play attempt for a layer with a locator and a volume in range,
      none otherwise. */
  lemma FirstRenderMountsEachLayer(sounds: seq<MixerSound>)
    ensures forall i :: 0 <= i < |sounds| ==> WellFormed(Reconcile([], sounds)[i], sounds[i])
  {
  }

  /** Re-rendering after a volume change keeps every channel (no layer is
      re-played) and moves only the addressed element's volume, and that
      only when the new volume is in range; out of range the effect throws
      and the element keeps its volume. */
  lemma {:induction false} VolumeChangeDoesNotReplay(st: MixerState, id: string, v: real)
    requires UniqueIds(st.activeSounds)
    ensures var before := Reconcile([], st.activeSounds);
            var after := Reconcile(before, UpdateVolume(st, id, v).activeSounds);
            |after| == |before|
            && forall i :: 0 <= i < |before| ==>
              after[i].id == before[i].id
              && (after[i].element.Some? <==> before[i].element.Some?)
              && (after[i].element.Some? ==>
                    after[i].element.value.playAttempts == before[i].element.value.playAttempts
                    && after[i].element.value.volume
                       == (if before[i].id == id && InRange(v) then v else before[i].element.value.volume))
              && (before[i].id == id && before[i].element.Some? && !InRange(v) ==> after[i].threw)
  {
    var s := st.activeSounds;
    var before := Reconcile([], s);
    var s2 := UpdateVolume(st, id, v).activeSounds;
    var after := Reconcile(before, s2);
    forall i | 0 <= i < |before|
      ensures FindChannel(before, s2[i].track.id) == Some(before[i])
    {
      FindUnique(before, i);
    }
  }

  /** With pairwise distinct keys, looking a channel up by its own key finds
      that channel. */
  lemma {:induction false} FindUnique(cs: seq<Channel>, i: nat)
    requires i < |cs|
    requires forall a, b :: 0 <= a < b < |cs| ==> cs[a].id != cs[b].id
    ensures FindChannel(cs, cs[i].id) == Some(cs[i])
    decreases i
  {
    if i > 0 {
      assert cs[1..][i - 1] == cs[i];
      assert forall a, b :: 0 <= a < b < |cs[1..]| ==> cs[1..][a].id != cs[1..][b].id by {
        forall a, b | 0 <= a < b < |cs[1..]| ensures cs[1..][a].id != cs[1..][b].id {
          assert cs[1..][a] == cs[a + 1] && cs[1..][b] == cs[b + 1];
        }
      }
      FindUnique(cs[1..], i - 1);
    }
  }
}
