/** The relaxation-coach chat. A reply may carry a mix command inside a
    `|||JSON ... |||` block or, failing that, a fenced json block; the block
    is cut out of the displayed text, and the tracks it names that the
    catalog resolves are layered into the mixer as "AI Mix". */
module ChatInterface {
  import opened Common
  import opened PlayerStore
  import opened MixerStore
  import opened MixCommand

  datatype Role = User | Model

  datatype Message = Message(role: Role, text: string)

  const Greeting := Message(Model, "Hello. I am Aura. How are you feeling right now?")
  const Fallback := Message(Model, "I'm having trouble connecting right now. Please try again.")

  const Category: string := "AI Mix"

  /** Openers are matched case-insensitively, so they are written here in
      lower case; closers contain no letters. */
  const HiddenOpen: string := "|||json"
  const HiddenClose: string := "|||"
  const FenceOpen: string := "```json"
  const FenceClose: string := "```"

  // ---------------------------------------------------------------------
  // The two command-block patterns

  /** `open` occurs at `p`, letters compared without case. Only ASCII
      letters fold onto the ASCII letters of "json" under the /i flag. */
  predicate OpensAt(s: string, open: string, p: int)
  {
    0 <= p && p + |open| <= |s| && Lower(s[p..p + |open|]) == open
  }

  /** Where a block starts, where its body lies and where it ends. */
  datatype Block = Block(start: nat, bodyStart: nat, bodyEnd: nat, end: nat)

  /** `m` is the match the pattern `open([\s\S]*?)close` finds when it is
      tried at `m.start`: the body is the shortest one followed by `close`. */
  predicate MatchesAt(s: string, open: string, close: string, m: Block)
  {
    OpensAt(s, open, m.start) && m.bodyStart == m.start + |open|
    && m.bodyStart <= m.bodyEnd && OccursAt(s, close, m.bodyEnd) && m.end == m.bodyEnd + |close|
    && forall q :: m.bodyStart <= q < m.bodyEnd ==> !OccursAt(s, close, q)
  }

  /** The pattern can match when tried at `p`. */
  ghost predicate CanMatchAt(s: string, open: string, close: string, p: int)
  {
    OpensAt(s, open, p) && exists q :: p + |open| <= q && OccursAt(s, close, q)
  }

  /** `String.prototype.match` with `open([\s\S]*?)close` (flag i), trying
      start positions from `from` on: the leftmost start that can match,
      with its shortest body. */
  function FindBlock(s: string, open: string, close: string, from: nat): (r: Option<Block>)
    decreases |s| - from
    ensures r.Some? ==> from <= r.value.start && MatchesAt(s, open, close, r.value)
    ensures r.Some? ==> forall p :: from <= p < r.value.start ==> !CanMatchAt(s, open, close, p)
    ensures r.None? ==> forall p :: from <= p ==> !CanMatchAt(s, open, close, p)
  {
    if from + |open| > |s| then None
    else if OpensAt(s, open, from) then
      match IndexOfFrom(s, close, from + |open|)
      case Some(q) => Some(Block(from, from + |open|, q, q + |close|))
      case None => FindBlock(s, open, close, from + 1)
    else FindBlock(s, open, close, from + 1)
  }

  /** `s.replace(pat, "")` with a string pattern: only the first occurrence
      goes. */
  function ReplaceFirst(s: string, pat: string): (r: string)
    ensures !Contains(s, pat) ==> r == s
  {
    match IndexOfFrom(s, pat, 0)
    case None =>
      ContainsIffIndexOf(s, pat);
      s
    case Some(i) => s[..i] + s[i + |pat|..]
  }

  /** Replacing the matched text removes the match itself: no earlier copy
      of the matched text exists, since the pattern would have matched
      there first. */
  lemma ReplaceRemovesMatch(s: string, open: string, close: string)
    requires FindBlock(s, open, close, 0).Some?
    ensures var m := FindBlock(s, open, close, 0).value;
      ReplaceFirst(s, s[m.start..m.end]) == s[..m.start] + s[m.end..]
  {
    var m := FindBlock(s, open, close, 0).value;
    var pat := s[m.start..m.end];
    assert OccursAt(s, pat, m.start);
    var i := IndexOfFrom(s, pat, 0);
    assert i.Some? && i.value <= m.start;
    if i.value < m.start {
      CopyCanMatch(s, open, close, m, i.value);
      assert false;
    }
  }

  /** A copy of a match's text at an earlier position is itself a place
      where the pattern can match. */
  lemma CopyCanMatch(s: string, open: string, close: string, m: Block, p: nat)
    requires MatchesAt(s, open, close, m)
    requires OccursAt(s, s[m.start..m.end], p)
    ensures CanMatchAt(s, open, close, p)
  {
    var n := m.end - m.start;
    assert s[p..p + n] == s[m.start..m.start + n];
    OpenCopied(s, open, p, m.start, n);
    CloseCopied(s, close, p, m.start, n, m.bodyEnd - m.start);
  }

  lemma OpenCopied(s: string, open: string, p: nat, q: nat, n: nat)
    requires p + n <= |s| && q + n <= |s| && |open| <= n
    requires s[p..p + n] == s[q..q + n] && OpensAt(s, open, q)
    ensures OpensAt(s, open, p)
  {
    Window(s, p, q, n, |open|);
  }

  /** Two equal windows of `s` start with equal shorter windows. */
  lemma Window(s: string, p: nat, q: nat, n: nat, w: nat)
    requires p + n <= |s| && q + n <= |s| && w <= n
    requires s[p..p + n] == s[q..q + n]
    ensures s[p..p + w] == s[q..q + w]
  {
    assert s[p..p + w] == s[p..p + n][..w];
    assert s[q..q + w] == s[q..q + n][..w];
  }

  lemma CloseCopied(s: string, close: string, p: nat, q: nat, n: nat, d: nat)
    requires p + n <= |s| && q + n <= |s| && d + |close| <= n
    requires s[p..p + n] == s[q..q + n] && OccursAt(s, close, q + d)
    ensures OccursAt(s, close, p + d)
  {
    SameSlice(s, p, q, n, d, |close|);
  }

  /** Two equal windows of `s` agree on every sub-window. */
  lemma SameSlice(s: string, p: nat, q: nat, n: nat, d: nat, w: nat)
    requires p + n <= |s| && q + n <= |s| && d + w <= n
    requires s[p..p + n] == s[q..q + n]
    ensures s[p + d..p + d + w] == s[q + d..q + d + w]
  {
    var left, right := s[p + d..p + d + w], s[q + d..q + d + w];
    forall k | 0 <= k < w ensures left[k] == right[k] {
      assert s[p + d + k] == s[p..p + n][d + k] == s[q..q + n][d + k] == s[q + d + k];
    }
  }

  /** The text shown and the command body found in a reply. */
  datatype Extracted = Extracted(clean: string, body: Option<string>)

  function Cut(s: string, m: Block): (r: Extracted)
    requires m.start <= m.bodyStart <= m.bodyEnd <= m.end <= |s|
  {
    Extracted(Trim(ReplaceFirst(s, s[m.start..m.end])), Some(s[m.bodyStart..m.bodyEnd]))
  }

  /** The block extraction of `handleSend`: the hidden block wins over the
      fenced one; with neither the reply is shown untrimmed and carries no
      command. */
  function Extract(s: string): (r: Extracted)
    ensures FindBlock(s, HiddenOpen, HiddenClose, 0).None? && FindBlock(s, FenceOpen, FenceClose, 0).None? ==>
      r == Extracted(s, None)
    ensures r.body.Some? ==> |r.body.value| <= |s|
  {
    match FindBlock(s, HiddenOpen, HiddenClose, 0)
    case Some(m) => Cut(s, m)
    case None =>
      match FindBlock(s, FenceOpen, FenceClose, 0)
      case Some(m) => Cut(s, m)
      case None => Extracted(s, None)
  }

  /** When a hidden block is present its body is the command and the shown
      text is the reply with that block cut out once, then trimmed; a fenced
      block in the same reply is ignored. */
  lemma HiddenBlockWins(s: string)
    requires FindBlock(s, HiddenOpen, HiddenClose, 0).Some?
    ensures var m := FindBlock(s, HiddenOpen, HiddenClose, 0).value;
      Extract(s) == Extracted(Trim(s[..m.start] + s[m.end..]), Some(s[m.start + 7..m.bodyEnd]))
  {
    ReplaceRemovesMatch(s, HiddenOpen, HiddenClose);
  }

  /** Without a hidden block a fenced block is used the same way. */
  lemma FenceBlockFallback(s: string)
    requires FindBlock(s, HiddenOpen, HiddenClose, 0).None?
    requires FindBlock(s, FenceOpen, FenceClose, 0).Some?
    ensures var m := FindBlock(s, FenceOpen, FenceClose, 0).value;
      Extract(s) == Extracted(Trim(s[..m.start] + s[m.end..]), Some(s[m.start + 7..m.bodyEnd]))
  {
    ReplaceRemovesMatch(s, FenceOpen, FenceClose);
  }

  /** The opener's letters may come in any case. */
  lemma UpperCaseOpenerMatches()
    ensures OpensAt("|||JSON", HiddenOpen, 0) && OpensAt("|||JsOn", HiddenOpen, 0)
  {
    LowerMatches("|||JSON", HiddenOpen);
    OpensWhole("|||JSON", HiddenOpen);
    LowerMatches("|||JsOn", HiddenOpen);
    OpensWhole("|||JsOn", HiddenOpen);
  }

  lemma OpensWhole(s: string, open: string)
    requires Lower(s) == open
    ensures OpensAt(s, open, 0)
  {
    assert s[0..|open|] == s;
  }

  // ---------------------------------------------------------------------
  // Applying a command

  /** One entry of `mixCommand.mix`; `volume` is None when it is missing. */
  datatype MixEntry = MixEntry(id: string, volume: Option<real>)

  /** What `mixCommand.mix` turned out to be after `JSON.parse`: falsy or
      absent (including a parse that threw), truthy but not an array (its
      `.map` throws), or an array of entries. */
  datatype MixField = Absent | NotArray | Entries(entries: seq<MixEntry>)

  /** `mixConfig?.volume` is truthy: present and not 0. */
  predicate Truthy(v: Option<real>)
  {
    v.Some? && v.value != 0.0
  }

  /** `mix.find(m => m.id === id)`. */
  function FirstEntry(es: seq<MixEntry>, id: string): (r: Option<MixEntry>)
    ensures r.Some? ==> r.value in es && r.value.id == id
    ensures r.None? ==> forall k :: 0 <= k < |es| ==> es[k].id != id
  {
    if |es| == 0 then None
    else if es[0].id == id then Some(es[0])
    else FirstEntry(es[1..], id)
  }

  /** `.in("id", mix.map(m => m.id))`: the catalog rows the command names,
      in catalog order. */
  function Resolve(rows: seq<Track>, es: seq<MixEntry>): (r: seq<Track>)
    ensures forall t :: t in r <==> t in rows && FirstEntry(es, t.id).Some?
  {
    if |rows| == 0 then []
    else
      var rest := Resolve(rows[1..], es);
      if FirstEntry(es, rows[0].id).Some? then [rows[0]] + rest else rest
  }

  /** The layer `addSound({ ...track, category: "AI Mix" })` creates. */
  function AsLayer(t: Track): MixerSound
  {
    MixerSound(t.(category := Category), DefaultVolume)
  }

  /** `x` is the layer of one of `tracks`. */
  ghost predicate LayerOf(x: MixerSound, tracks: seq<Track>)
  {
    exists t :: t in tracks && x == AsLayer(t)
  }

  /** Every layer of `after` past the length of `before` is the layer of
      one of `tracks`. */
  ghost predicate LayersFrom(before: seq<MixerSound>, after: seq<MixerSound>, tracks: seq<Track>)
  {
    forall i :: |before| <= i < |after| ==> LayerOf(after[i], tracks)
  }

  /** `x` is the layer of a catalog row that the command names. */
  ghost predicate Named(x: MixerSound, rows: seq<Track>, es: seq<MixEntry>)
  {
    exists t :: t in rows && FirstEntry(es, t.id).Some? && x == AsLayer(t)
  }

  datatype Applied = Applied(mixer: MixerState, pending: seq<Deferred>)

  /** `tracks.forEach(...)`: each resolved track is added as "AI Mix", and
      its volume is queued only when its first entry's volume is truthy. */
  function AddResolved(st: MixerState, tracks: seq<Track>, es: seq<MixEntry>): (r: Applied)
    decreases |tracks|
    ensures r.mixer.isOpen == st.isOpen && r.mixer.currentMood == st.currentMood
    ensures st.activeSounds <= r.mixer.activeSounds
    ensures forall d :: d in r.pending ==>
      FirstEntry(es, d.id) == Some(MixEntry(d.id, Some(d.volume))) && d.volume != 0.0
  {
    if |tracks| == 0 then Applied(st, [])
    else
      var t := tracks[0];
      var s1 := AddSound(st, t.(category := Category));
      var want := Requested(es, t.id);
      var q := if want.Some? then [Deferred(t.id, want.value)] else [];
      var rest := AddResolved(s1, tracks[1..], es);
      Applied(rest.mixer, q + rest.pending)
  }

  /** The volume the command asks for a track: its first entry's volume,
      when that is truthy. */
  function Requested(es: seq<MixEntry>, id: string): (v: Option<real>)
    ensures v.Some? <==> FirstEntry(es, id).Some? && Truthy(FirstEntry(es, id).value.volume)
    ensures v.Some? ==> v == FirstEntry(es, id).value.volume && v.value != 0.0
  {
    var cfg := FirstEntry(es, id);
    if cfg.Some? && Truthy(cfg.value.volume) then cfg.value.volume else None
  }

  /** Every track whose first entry has a truthy volume has that volume
      queued. */
  lemma {:induction false} AddResolvedQueuesEach(st: MixerState, tracks: seq<Track>, es: seq<MixEntry>)
    ensures QueuesEach(AddResolved(st, tracks, es).pending, tracks, es)
    decreases |tracks|
  {
    if |tracks| > 0 {
      var s1 := AddSound(st, tracks[0].(category := Category));
      AddResolvedQueuesEach(s1, tracks[1..], es);
      forall k | 1 <= k < |tracks| ensures tracks[k] == tracks[1..][k - 1] { }
    }
  }

  /** Each of `tracks` with a requested volume has it in `pending`. */
  predicate QueuesEach(pending: seq<Deferred>, tracks: seq<Track>, es: seq<MixEntry>)
  {
    forall k :: 0 <= k < |tracks| && Requested(es, tracks[k].id).Some? ==>
      Deferred(tracks[k].id, Requested(es, tracks[k].id).value) in pending
  }

  /** The changes the chat queues for `tracks`: one per track with a
      requested volume, in track order. */
  function Queued(tracks: seq<Track>, es: seq<MixEntry>): (q: seq<Deferred>)
    ensures |q| <= |tracks|
    ensures forall d :: d in q ==> exists k :: 0 <= k < |tracks| && tracks[k].id == d.id
  {
    if |tracks| == 0 then []
    else
      var want := Requested(es, tracks[0].id);
      (if want.Some? then [Deferred(tracks[0].id, want.value)] else []) + Queued(tracks[1..], es)
  }

  /** The queue is exactly the reference list, whatever the mixer held:
      adding a layer that already exists still queues its volume. */
  lemma {:induction false} AddResolvedPendingIsQueued(st: MixerState, tracks: seq<Track>, es: seq<MixEntry>)
    ensures AddResolved(st, tracks, es).pending == Queued(tracks, es)
    decreases |tracks|
  {
    if |tracks| > 0 {
      var s1 := AddSound(st, tracks[0].(category := Category));
      AddResolvedPendingIsQueued(s1, tracks[1..], es);
    }
  }

  /** No two tracks share an id, as the rows of one table keyed by id. */
  predicate TrackIdsDistinct(tracks: seq<Track>)
  {
    forall i, j :: 0 <= i < j < |tracks| ==> tracks[i].id != tracks[j].id
  }

  /** An id no track carries is never queued. */
  lemma {:induction false} PendingSkips(st: MixerState, tracks: seq<Track>, es: seq<MixEntry>, id: string)
    requires forall k :: 0 <= k < |tracks| ==> tracks[k].id != id
    ensures forall j :: 0 <= j < |AddResolved(st, tracks, es).pending| ==> AddResolved(st, tracks, es).pending[j].id != id
    decreases |tracks|
  {
    if |tracks| > 0 {
      var s1 := AddSound(st, tracks[0].(category := Category));
      assert forall k :: 0 <= k < |tracks[1..]| ==> tracks[1..][k] == tracks[k + 1];
      PendingSkips(s1, tracks[1..], es, id);
    }
  }

  /** The volume `k`-th track's channel ends with once the queue has run:
      the requested one, or the one it had. */
  lemma {:induction false} PendingLands(st: MixerState, tracks: seq<Track>, es: seq<MixEntry>, k: nat, current: real)
    requires TrackIdsDistinct(tracks) && k < |tracks|
    ensures LastQueued(AddResolved(st, tracks, es).pending, tracks[k].id, current)
      == (if Requested(es, tracks[k].id).Some? then Requested(es, tracks[k].id).value else current)
    decreases |tracks|
  {
    var t := tracks[0];
    var s1 := AddSound(st, t.(category := Category));
    var rest := AddResolved(s1, tracks[1..], es).pending;
    var pending := AddResolved(st, tracks, es).pending;
    var want := Requested(es, t.id);
    assert pending == (if want.Some? then [Deferred(t.id, want.value)] else []) + rest;
    if k == 0 {
      PendingSkips(s1, tracks[1..], es, t.id);
      if want.Some? {
        assert pending[1..] == rest;
        LastQueuedAbsent(rest, t.id, want.value);
      } else {
        assert pending == rest;
        LastQueuedAbsent(rest, t.id, current);
      }
    } else {
      var j: nat := k - 1;
      assert tracks[1..][j] == tracks[k];
      if want.Some? {
        assert pending[1..] == rest;
      }
      PendingLands(s1, tracks[1..], es, j, current);
    }
  }

  /** The layers of `tracks` once their requested volumes have landed. */
  function Landed(tracks: seq<Track>, es: seq<MixEntry>): (r: seq<MixerSound>)
    ensures |r| == |tracks|
    ensures forall k :: 0 <= k < |tracks| ==>
      r[k].track == tracks[k].(category := Category)
      && r[k].volume == (if Requested(es, tracks[k].id).Some? then Requested(es, tracks[k].id).value else DefaultVolume)
  {
    if |tracks| == 0 then []
    else
      var v := Requested(es, tracks[0].id);
      [MixerSound(tracks[0].(category := Category), if v.Some? then v.value else DefaultVolume)] + Landed(tracks[1..], es)
  }

  /** The layers `addSound` creates for `tracks`, in order. */
  function Added(tracks: seq<Track>): (r: seq<MixerSound>)
    ensures |r| == |tracks| && forall k :: 0 <= k < |tracks| ==> r[k] == AsLayer(tracks[k])
  {
    if |tracks| == 0 then [] else [AsLayer(tracks[0])] + Added(tracks[1..])
  }

  /** One step of `AddResolved`: the first track is added, then the rest. */
  lemma AddResolvedStep(st: MixerState, tracks: seq<Track>, es: seq<MixEntry>)
    requires |tracks| > 0
    ensures AddResolved(st, tracks, es).mixer
      == AddResolved(AddSound(st, tracks[0].(category := Category)), tracks[1..], es).mixer
  {
  }

  /** Fresh tracks with distinct ids are appended one layer each, in order. */
  lemma {:induction false} AddResolvedFresh(st: MixerState, tracks: seq<Track>, es: seq<MixEntry>)
    requires TrackIdsDistinct(tracks)
    requires forall k :: 0 <= k < |tracks| ==> !HasId(st.activeSounds, tracks[k].id)
    ensures AddResolved(st, tracks, es).mixer.activeSounds == st.activeSounds + Added(tracks)
    decreases |tracks|
  {
    if |tracks| > 0 {
      var s1 := AddSound(st, tracks[0].(category := Category));
      var tail := tracks[1..];
      FirstAddedTailFresh(st, tracks);
      AddResolvedFresh(s1, tail, es);
      AddResolvedStep(st, tracks, es);
      AppendOne(st.activeSounds, AsLayer(tracks[0]), Added(tail));
      assert Added(tracks) == [AsLayer(tracks[0])] + Added(tail);
    }
  }

  /** After the first fresh track is added, the remaining tracks are still
      distinct and still fresh. */
  lemma FirstAddedTailFresh(st: MixerState, tracks: seq<Track>)
    requires |tracks| > 0 && TrackIdsDistinct(tracks)
    requires forall k :: 0 <= k < |tracks| ==> !HasId(st.activeSounds, tracks[k].id)
    ensures var s1 := AddSound(st, tracks[0].(category := Category));
      s1.activeSounds == st.activeSounds + [AsLayer(tracks[0])]
      && TrackIdsDistinct(tracks[1..])
      && forall k :: 0 <= k < |tracks[1..]| ==> !HasId(s1.activeSounds, tracks[1..][k].id)
  {
    var x := AsLayer(tracks[0]);
    var s1 := AddSound(st, tracks[0].(category := Category));
    assert s1.activeSounds == st.activeSounds + [x];
    var tail := tracks[1..];
    forall k | 0 <= k < |tail| ensures !HasId(s1.activeSounds, tail[k].id) {
      assert tail[k] == tracks[k + 1];
      FreshAfterOne(st.activeSounds, x, tail[k].id);
    }
  }

  lemma AppendOne<T>(a: seq<T>, x: T, b: seq<T>)
    ensures (a + [x]) + b == a + ([x] + b)
  {
  }

  lemma FreshAfterOne(a: seq<MixerSound>, x: MixerSound, id: string)
    requires !HasId(a, id) && x.track.id != id
    ensures !HasId(a + [x], id)
  {
  }

  /** The chat's counterpart of `MixCommand.ApplyMix`: adding fresh tracks
      with distinct ids and then running the queued volume changes appends
      one layer per track, in order, at its requested volume (0.7 when none
      is requested), and leaves earlier layers untouched. */
  lemma AddResolvedThenFlush(st: MixerState, tracks: seq<Track>, es: seq<MixEntry>)
    requires TrackIdsDistinct(tracks)
    requires forall k :: 0 <= k < |tracks| ==> !HasId(st.activeSounds, tracks[k].id)
    ensures var a := AddResolved(st, tracks, es);
      Flush(a.mixer, a.pending).activeSounds == st.activeSounds + Landed(tracks, es)
  {
    var a := AddResolved(st, tracks, es);
    AddResolvedFresh(st, tracks, es);
    var r := Flush(a.mixer, a.pending).activeSounds;
    var before := st.activeSounds;
    forall i | 0 <= i < |before| ensures r[i] == before[i] {
      OldLayerKept(st, tracks, es, i);
    }
    forall k | 0 <= k < |tracks| ensures r[|before| + k] == Landed(tracks, es)[k] {
      NewLayerLanded(st, tracks, es, k);
    }
    JoinedAt(r, before, Landed(tracks, es));
  }

  /** A sequence that agrees with `a` and then with `b`, position by
      position, is `a + b`. */
  lemma JoinedAt<T>(r: seq<T>, a: seq<T>, b: seq<T>)
    requires |r| == |a| + |b|
    requires forall i :: 0 <= i < |a| ==> r[i] == a[i]
    requires forall k :: 0 <= k < |b| ==> r[|a| + k] == b[k]
    ensures r == a + b
  {
    forall i | |a| <= i < |r| ensures r[i] == (a + b)[i] {
      assert r[|a| + (i - |a|)] == b[i - |a|];
    }
  }

  lemma OldLayerKept(st: MixerState, tracks: seq<Track>, es: seq<MixEntry>, i: nat)
    requires forall k :: 0 <= k < |tracks| ==> !HasId(st.activeSounds, tracks[k].id)
    requires i < |st.activeSounds|
    requires AddResolved(st, tracks, es).mixer.activeSounds == st.activeSounds + Added(tracks)
    ensures var a := AddResolved(st, tracks, es);
      Flush(a.mixer, a.pending).activeSounds[i] == st.activeSounds[i]
  {
    var a := AddResolved(st, tracks, es);
    var x := st.activeSounds[i];
    assert a.mixer.activeSounds[i] == x;
    forall k | 0 <= k < |tracks| ensures tracks[k].id != x.track.id {
      assert !HasId(st.activeSounds, tracks[k].id);
    }
    PendingSkips(st, tracks, es, x.track.id);
    LastQueuedAbsent(a.pending, x.track.id, x.volume);
  }

  lemma NewLayerLanded(st: MixerState, tracks: seq<Track>, es: seq<MixEntry>, k: nat)
    requires TrackIdsDistinct(tracks) && k < |tracks|
    requires AddResolved(st, tracks, es).mixer.activeSounds == st.activeSounds + Added(tracks)
    ensures var a := AddResolved(st, tracks, es);
      Flush(a.mixer, a.pending).activeSounds[|st.activeSounds| + k] == Landed(tracks, es)[k]
  {
    var a := AddResolved(st, tracks, es);
    assert a.mixer.activeSounds[|st.activeSounds| + k] == AsLayer(tracks[k]);
    PendingLands(st, tracks, es, k, DefaultVolume);
  }


  /** Every new layer is the layer of one of the tracks. */
  lemma {:induction false} AddResolvedLayers(st: MixerState, tracks: seq<Track>, es: seq<MixEntry>)
    ensures LayersFrom(st.activeSounds, AddResolved(st, tracks, es).mixer.activeSounds, tracks)
    decreases |tracks|
  {
    if |tracks| > 0 {
      var s1 := AddSound(st, tracks[0].(category := Category));
      AddResolvedLayers(s1, tracks[1..], es);
      NewLayersFrom(st, s1, AddResolved(s1, tracks[1..], es).mixer, tracks);
    }
  }

  /** Every track ends up with a layer. */
  lemma {:induction false} AddResolvedCovers(st: MixerState, tracks: seq<Track>, es: seq<MixEntry>)
    ensures forall t :: t in tracks ==> HasId(AddResolved(st, tracks, es).mixer.activeSounds, t.id)
    decreases |tracks|
  {
    if |tracks| > 0 {
      var s1 := AddSound(st, tracks[0].(category := Category));
      var rest := AddResolved(s1, tracks[1..], es);
      AddResolvedCovers(s1, tracks[1..], es);
      HasIdKept(s1.activeSounds, rest.mixer.activeSounds, tracks[0].id);
      assert forall u :: u in tracks ==> u == tracks[0] || u in tracks[1..];
    }
  }

  /** Adding keeps ids unique. */
  lemma {:induction false} AddResolvedKeepsUnique(st: MixerState, tracks: seq<Track>, es: seq<MixEntry>)
    requires UniqueIds(st.activeSounds)
    ensures UniqueIds(AddResolved(st, tracks, es).mixer.activeSounds)
    decreases |tracks|
  {
    if |tracks| > 0 {
      AddResolvedKeepsUnique(AddSound(st, tracks[0].(category := Category)), tracks[1..], es);
    }
  }

  lemma NewLayersFrom(st: MixerState, s1: MixerState, after: MixerState, tracks: seq<Track>)
    requires |tracks| > 0 && s1 == AddSound(st, tracks[0].(category := Category))
    requires s1.activeSounds <= after.activeSounds
    requires LayersFrom(s1.activeSounds, after.activeSounds, tracks[1..])
    ensures LayersFrom(st.activeSounds, after.activeSounds, tracks)
  {
    forall i | |st.activeSounds| <= i < |after.activeSounds| ensures LayerOf(after.activeSounds[i], tracks) {
      if i < |s1.activeSounds| {
        assert after.activeSounds[i] == s1.activeSounds[i] == AsLayer(tracks[0]);
      } else {
        assert LayerOf(after.activeSounds[i], tracks[1..]);
        var t :| t in tracks[1..] && after.activeSounds[i] == AsLayer(t);
        assert t in tracks;
      }
    }
  }


  // ---------------------------------------------------------------------
  // Sending a message

  /** What the coach endpoint gave back: the request or its JSON decoding
      failed, or a body whose `response` field is present or not. */
  datatype Reply = Unreachable | Json(response: Option<string>)

  datatype Chat = Chat(input: string, messages: seq<Message>, isLoading: bool, mixer: MixerState)

  const InitialChat := Chat("", [Greeting], false, MixerStore.Initial)

  datatype Sent = Sent(chat: Chat, pending: seq<Deferred>)

  /** `overrideText || input`. */
  function TextToSend(input: string, override: Option<string>): (r: string)
    ensures r == input || (override.Some? && r == override.value && r != "")
  {
    if override.Some? && override.value != "" then override.value else input
  }

  /** A send is ignored when the text is blank or a reply is pending. */
  predicate Ignored(c: Chat, override: Option<string>)
  {
    Trim(TextToSend(c.input, override)) == "" || c.isLoading
  }

  /** The command a reply carries, as the oracle `parse` decodes it. */
  function FieldOf(raw: string, parse: string -> MixField): MixField
  {
    var ex := Extract(raw);
    if ex.body.Some? then parse(ex.body.value) else Absent
  }

  /** The command step of `handleSend`: what a decoded command does to the
      mixer. `failed` is set when `.map` throws on a `mix` that is not an
      array. */
  datatype Outcome = Outcome(mixer: MixerState, pending: seq<Deferred>, failed: bool)

  function ApplyCommand(st: MixerState, field: MixField, table: Option<seq<Track>>): (r: Outcome)
    ensures field.Absent? ==> r == Outcome(st, [], false)
    ensures !field.Absent? ==> r.mixer.isOpen
    ensures r.failed <==> field.NotArray?
    ensures st.activeSounds <= r.mixer.activeSounds && r.mixer.currentMood == st.currentMood
    ensures field.Entries? && table.Some? ==>
      (forall i :: |st.activeSounds| <= i < |r.mixer.activeSounds| ==>
         Named(r.mixer.activeSounds[i], table.value, field.entries))
      && (forall t :: t in table.value && FirstEntry(field.entries, t.id).Some? ==> HasId(r.mixer.activeSounds, t.id))
    ensures field.Entries? ==>
      forall d :: d in r.pending ==> FirstEntry(field.entries, d.id) == Some(MixEntry(d.id, Some(d.volume))) && d.volume != 0.0
    ensures field.Entries? && table.Some? ==> QueuesEach(r.pending, Resolve(table.value, field.entries), field.entries)
    ensures !(field.Entries? && table.Some?) ==> r.mixer.activeSounds == st.activeSounds && r.pending == []
  {
    match field
    case Absent => Outcome(st, [], false)
    case NotArray => Outcome(SetMixerOpen(st, true), [], true)
    case Entries(es) =>
      var panel := SetMixerOpen(st, true);
      match table
      case None => Outcome(panel, [], false)
      case Some(rows) =>
        var tracks := Resolve(rows, es);
        var a := AddResolved(panel, tracks, es);
        AddResolvedLayers(panel, tracks, es);
        AddResolvedCovers(panel, tracks, es);
        AddResolvedQueuesEach(panel, tracks, es);
        ResolvedLayers(panel, a.mixer, tracks, rows, es);
        Outcome(a.mixer, a.pending, false)
  }

  lemma ResolvedLayers(st: MixerState, after: MixerState, tracks: seq<Track>, rows: seq<Track>, es: seq<MixEntry>)
    requires tracks == Resolve(rows, es)
    requires LayersFrom(st.activeSounds, after.activeSounds, tracks)
    ensures forall i :: |st.activeSounds| <= i < |after.activeSounds| ==> Named(after.activeSounds[i], rows, es)
  {
    forall i | |st.activeSounds| <= i < |after.activeSounds| ensures Named(after.activeSounds[i], rows, es) {
      assert LayerOf(after.activeSounds[i], tracks);
      var t :| t in tracks && after.activeSounds[i] == AsLayer(t);
      assert t in rows && FirstEntry(es, t.id).Some?;
    }
  }

  /** The catalog rows of a table keyed by id keep distinct ids after the
      `.in` filter. */
  lemma {:induction false} ResolveDistinct(rows: seq<Track>, es: seq<MixEntry>)
    requires TrackIdsDistinct(rows)
    ensures TrackIdsDistinct(Resolve(rows, es))
    decreases |rows|
  {
    if |rows| > 0 {
      var tail := rows[1..];
      var rest := Resolve(tail, es);
      ResolveDistinct(tail, es);
      forall j | 0 <= j < |rest| ensures rest[j].id != rows[0].id {
        assert rest[j] in tail;
        var m :| 0 <= m < |tail| && tail[m] == rest[j];
        assert tail[m] == rows[m + 1];
      }
    }
  }

  /** A whole command over a catalog keyed by id, none of whose rows is
      already layered: once the queued changes have run, the mixer holds
      the earlier layers and then one layer per named row, in catalog
      order, at the requested volume (0.7 when none is requested). */
  lemma ApplyCommandLands(st: MixerState, es: seq<MixEntry>, rows: seq<Track>)
    requires TrackIdsDistinct(rows)
    requires forall k :: 0 <= k < |rows| ==> !HasId(st.activeSounds, rows[k].id)
    ensures var o := ApplyCommand(st, Entries(es), Some(rows));
      Flush(o.mixer, o.pending).activeSounds == st.activeSounds + Landed(Resolve(rows, es), es)
  {
    var tracks := Resolve(rows, es);
    var panel := SetMixerOpen(st, true);
    ResolveDistinct(rows, es);
    forall k | 0 <= k < |tracks| ensures !HasId(panel.activeSounds, tracks[k].id) {
      assert tracks[k] in rows;
      var m :| 0 <= m < |rows| && rows[m] == tracks[k];
    }
    AddResolvedThenFlush(panel, tracks, es);
  }

  /** `handleSend`. The JSON decoder is the oracle `parse`; `table` is the
      catalog query's rows (None when the query failed). */
  function HandleSend(c: Chat, override: Option<string>, reply: Reply,
                      parse: string -> MixField, table: Option<seq<Track>>): (r: Sent)
    ensures Ignored(c, override) ==> r == Sent(c, [])
    ensures !Ignored(c, override) ==>
      r.chat.input == "" && !r.chat.isLoading
      && r.chat == Chat("", c.messages + [Message(User, TextToSend(c.input, override))] + Answer(c.mixer, reply, parse, table).said,
                        false, Answer(c.mixer, reply, parse, table).mixer)
      && r.pending == Answer(c.mixer, reply, parse, table).pending
  {
    var text := TextToSend(c.input, override);
    if Trim(text) == "" || c.isLoading then Sent(c, [])
    else
      var a := Answer(c.mixer, reply, parse, table);
      Sent(Chat("", c.messages + [Message(User, text)] + a.said, false, a.mixer), a.pending)
  }

  /** What the coach's messages and the mixer become once a sent message is
      answered. */
  datatype Answered = Answered(said: seq<Message>, mixer: MixerState, pending: seq<Deferred>)

  /** The rest of `handleSend` once the request is made. An empty reply
      throws before anything is shown, so only the fallback is said;
      otherwise the cleaned text is said, followed by the fallback when
      applying the command threw. */
  function Answer(st: MixerState, reply: Reply, parse: string -> MixField, table: Option<seq<Track>>): (r: Answered)
    ensures |r.said| >= 1 && r.said[0].role == Model
    ensures st.activeSounds <= r.mixer.activeSounds && r.mixer.currentMood == st.currentMood
    ensures reply.Unreachable? || reply.response.None? || reply.response == Some("") ==>
      r == Answered([Fallback], st, [])
    ensures reply.Json? && reply.response.Some? && reply.response.value != "" ==>
      var o := ApplyCommand(st, FieldOf(reply.response.value, parse), table);
      r.said == [Message(Model, Extract(reply.response.value).clean)] + (if o.failed then [Fallback] else [])
      && r.mixer == o.mixer && r.pending == o.pending
  {
    var raw := if reply.Json? && reply.response.Some? then reply.response.value else "";
    if raw == "" then Answered([Fallback], st, [])
    else
      var o := ApplyCommand(st, FieldOf(raw, parse), table);
      Answered([Message(Model, Extract(raw).clean)] + (if o.failed then [Fallback] else []), o.mixer, o.pending)
  }

  /** A reply whose block does not decode to a mix leaves the mixer as it
      was and queues nothing. */
  lemma NoCommandNoChange(c: Chat, override: Option<string>, text: string,
                          parse: string -> MixField, table: Option<seq<Track>>)
    requires !Ignored(c, override) && text != ""
    requires FieldOf(text, parse).Absent?
    ensures HandleSend(c, override, Json(Some(text)), parse, table).chat.mixer == c.mixer
    ensures HandleSend(c, override, Json(Some(text)), parse, table).pending == []
  {
  }

  /** A send that goes through always ends with the user's message followed
      by a coach message, and is never still loading. */
  lemma SendAlwaysAnswers(c: Chat, override: Option<string>, reply: Reply,
                          parse: string -> MixField, table: Option<seq<Track>>)
    requires !Ignored(c, override)
    ensures var r := HandleSend(c, override, reply, parse, table);
      |r.chat.messages| >= |c.messages| + 2
      && r.chat.messages[|c.messages|] == Message(User, TextToSend(c.input, override))
      && r.chat.messages[|c.messages| + 1].role == Model
      && !r.chat.isLoading
  {
  }
}
