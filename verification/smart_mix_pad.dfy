/** The XY pad that blends up to four mixer layers: the cursor position is
    clamped into the unit square and each corner's layer gets its bilinear
    weight as its new volume. */
module SmartMixPad {
  import opened Common
  import opened PlayerStore
  import opened MixerStore
  import opened MixCommand

  /** Number of layers the pad addresses. */
  const Corners: nat := 4

  datatype Pos = Pos(x: real, y: real)

  /** Where the pad's marker starts. */
  const InitialPos := Pos(0.5, 0.5)

  function Clamp01(v: real): (r: real)
    ensures 0.0 <= r <= 1.0
    ensures 0.0 <= v <= 1.0 ==> r == v
    ensures v < 0.0 ==> r == 0.0
    ensures v > 1.0 ==> r == 1.0
  {
    if v < 0.0 then 0.0 else if v > 1.0 then 1.0 else v
  }

  /** The bilinear weight of corner `k`: top-left, top-right, bottom-left,
      bottom-right. */
  function Weight(k: nat, p: Pos): real
    requires k < Corners
  {
    if k == 0 then (1.0 - p.x) * (1.0 - p.y)
    else if k == 1 then p.x * (1.0 - p.y)
    else if k == 2 then (1.0 - p.x) * p.y
    else p.x * p.y
  }

  predicate InUnitSquare(p: Pos)
  {
    0.0 <= p.x <= 1.0 && 0.0 <= p.y <= 1.0
  }

  /** Inside the unit square the four weights are volumes in [0, 1] that
      add up to exactly 1. */
  lemma WeightsAreConvex(p: Pos)
    requires InUnitSquare(p)
    ensures forall k :: 0 <= k < Corners ==> 0.0 <= Weight(k, p) <= 1.0
    ensures Weight(0, p) + Weight(1, p) + Weight(2, p) + Weight(3, p) == 1.0
  {
    forall k | 0 <= k < Corners ensures 0.0 <= Weight(k, p) <= 1.0 {
      WeightInUnit(k, p);
    }
    WeightsAddUp(p);
  }

  lemma WeightInUnit(k: nat, p: Pos)
    requires InUnitSquare(p) && k < Corners
    ensures 0.0 <= Weight(k, p) <= 1.0
  {
    var a, b := 1.0 - p.x, 1.0 - p.y;
    if k == 0 {
      MulUnit(a, b);
      assert Weight(k, p) == a * b;
    } else if k == 1 {
      MulUnit(p.x, b);
      assert Weight(k, p) == p.x * b;
    } else if k == 2 {
      MulUnit(a, p.y);
      assert Weight(k, p) == a * p.y;
    } else {
      MulUnit(p.x, p.y);
      assert Weight(k, p) == p.x * p.y;
    }
  }

  lemma WeightsAddUp(p: Pos)
    ensures Weight(0, p) + Weight(1, p) + Weight(2, p) + Weight(3, p) == 1.0
  {
    SumOfCorners(1.0 - p.x, 1.0 - p.y, p.x, p.y);
  }

  /** (a + x)(b + y) expanded, for a + x = b + y = 1. */
  lemma SumOfCorners(a: real, b: real, x: real, y: real)
    requires a + x == 1.0 && b + y == 1.0
    ensures a * b + x * b + a * y + x * y == 1.0
  {
    calc {
      a * b + x * b + a * y + x * y;
      (a + x) * b + (a + x) * y;
      b + y;
    }
  }

  lemma MulUnit(a: real, b: real)
    requires 0.0 <= a <= 1.0 && 0.0 <= b <= 1.0
    ensures 0.0 <= a * b <= a
  {
  }

  /** The centre of the pad gives every corner a quarter. */
  lemma CentreIsEvenBlend()
    ensures forall k :: 0 <= k < Corners ==> Weight(k, InitialPos) == 0.25
  {
  }

  /** How many layers the pad shows: `activeSounds.slice(0, 4)`. */
  function Mixable(st: MixerState): (n: nat)
    ensures n <= Corners && n <= |st.activeSounds|
    ensures n == Corners || n == |st.activeSounds|
  {
    Min(Corners, |st.activeSounds|)
  }

  /** The pad (and so its container element) exists only with at least two
      mixable layers. */
  predicate Rendered(st: MixerState)
  {
    Mixable(st) >= 2
  }

  /** One `updateVolume` per present corner, in corner order, addressed by
      the id the layer had when the cursor moved. */
  function PadQueue(sounds: seq<MixerSound>, p: Pos): (q: seq<Deferred>)
    ensures |q| == Min(Corners, |sounds|)
    ensures forall k :: 0 <= k < |q| ==> q[k] == Deferred(sounds[k].track.id, Weight(k, p))
  {
    Queue(sounds, p, 0)
  }

  function Queue(sounds: seq<MixerSound>, p: Pos, from: nat): (q: seq<Deferred>)
    requires from <= Corners
    decreases Corners - from
    ensures |q| == Max(0, Min(Corners, |sounds|) - from)
    ensures forall k :: 0 <= k < |q| ==> q[k] == Deferred(sounds[from + k].track.id, Weight(from + k, p))
  {
    if from >= Corners || from >= |sounds| then []
    else [Deferred(sounds[from].track.id, Weight(from, p))] + Queue(sounds, p, from + 1)
  }

  datatype Pad = Pad(mixer: MixerState, pos: Pos)

  /** `handleMove` for a cursor at fractions (`fx`, `fy`) of the pad's
      width and height. Without a rendered pad nothing happens. */
  function HandleMove(st: MixerState, pos: Pos, fx: real, fy: real): (r: Pad)
    ensures !Rendered(st) ==> r == Pad(st, pos)
    ensures Rendered(st) ==> r.pos == Pos(Clamp01(fx), Clamp01(fy)) && InUnitSquare(r.pos)
    ensures r.mixer.isOpen == st.isOpen && r.mixer.currentMood == st.currentMood
    ensures |r.mixer.activeSounds| == |st.activeSounds|
    ensures forall i :: 0 <= i < |st.activeSounds| ==> r.mixer.activeSounds[i].track == st.activeSounds[i].track
    ensures Rendered(st) && UniqueIds(st.activeSounds) ==>
      (forall i :: 0 <= i < Mixable(st) ==> r.mixer.activeSounds[i].volume == Weight(i, r.pos))
    ensures UniqueIds(st.activeSounds) ==>
      (forall i :: Mixable(st) <= i < |st.activeSounds| ==> r.mixer.activeSounds[i].volume == st.activeSounds[i].volume)
  {
    if !Rendered(st) then Pad(st, pos)
    else
      var p := Pos(Clamp01(fx), Clamp01(fy));
      var q := PadQueue(st.activeSounds, p);
      PadVolumes(st, p, q);
      Pad(Flush(st, q), p)
  }

  lemma PadVolumes(st: MixerState, p: Pos, q: seq<Deferred>)
    requires q == PadQueue(st.activeSounds, p)
    ensures UniqueIds(st.activeSounds) ==>
      (forall i :: 0 <= i < Mixable(st) ==> Flush(st, q).activeSounds[i].volume == Weight(i, p))
    ensures UniqueIds(st.activeSounds) ==>
      (forall i :: Mixable(st) <= i < |st.activeSounds| ==> Flush(st, q).activeSounds[i].volume == st.activeSounds[i].volume)
  {
    if UniqueIds(st.activeSounds) {
      forall i | 0 <= i < Mixable(st) ensures Flush(st, q).activeSounds[i].volume == Weight(i, p) {
        CornerVolume(st, p, q, i);
      }
      forall i | Mixable(st) <= i < |st.activeSounds| ensures Flush(st, q).activeSounds[i].volume == st.activeSounds[i].volume {
        OtherVolume(st, p, q, i);
      }
    }
  }

  lemma CornerVolume(st: MixerState, p: Pos, q: seq<Deferred>, i: nat)
    requires q == PadQueue(st.activeSounds, p) && UniqueIds(st.activeSounds) && i < Mixable(st)
    ensures Flush(st, q).activeSounds[i].volume == Weight(i, p)
  {
    var s := st.activeSounds;
    var id := s[i].track.id;
    forall j | 0 <= j < |q| && j != i ensures q[j].id != id {
      assert q[j].id == s[j].track.id;
      if j < i {
        assert s[j].track.id != s[i].track.id;
      } else {
        assert s[i].track.id != s[j].track.id;
      }
    }
    LastQueuedUnique(q, id, s[i].volume, i);
  }

  lemma OtherVolume(st: MixerState, p: Pos, q: seq<Deferred>, i: nat)
    requires q == PadQueue(st.activeSounds, p) && UniqueIds(st.activeSounds)
    requires Mixable(st) <= i < |st.activeSounds|
    ensures Flush(st, q).activeSounds[i].volume == st.activeSounds[i].volume
  {
    var s := st.activeSounds;
    LastQueuedAbsent(q, s[i].track.id, s[i].volume);
  }

  /** With all four corners occupied, the pad redistributes exactly a total
      volume of 1 over them, each share in [0, 1]. */
  lemma FourCornersShareUnitVolume(st: MixerState, pos: Pos, fx: real, fy: real)
    requires UniqueIds(st.activeSounds) && |st.activeSounds| >= Corners
    ensures var v := HandleMove(st, pos, fx, fy).mixer.activeSounds;
      v[0].volume + v[1].volume + v[2].volume + v[3].volume == 1.0
      && forall i :: 0 <= i < Corners ==> 0.0 <= v[i].volume <= 1.0
  {
    var r := HandleMove(st, pos, fx, fy);
    WeightsAreConvex(r.pos);
  }

  /** A cursor dragged outside the pad acts as the nearest edge. */
  lemma OutsideActsAsEdge(st: MixerState, pos: Pos, fx: real, fy: real)
    requires Rendered(st) && fx > 1.0 && fy < 0.0
    ensures HandleMove(st, pos, fx, fy) == HandleMove(st, pos, 1.0, 0.0)
  {
  }
}
