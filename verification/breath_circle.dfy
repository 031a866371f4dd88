/** The 4-7-8 breathing guide: inhale for 4 s, hold for 7 s, exhale for
    8 s, repeat. Each phase arms one timeout for its own length; when it
    fires the next phase is entered. Time is in milliseconds. */
module BreathCircle {
  import opened Common

  datatype Phase = Inhale | Hold | Exhale

  const CycleMs: nat := 19000

  function Duration(p: Phase): (ms: nat)
    ensures ms > 0
  {
    match p
    case Inhale => 4000
    case Hold => 7000
    case Exhale => 8000
  }

  function Next(p: Phase): Phase
  {
    match p
    case Inhale => Hold
    case Hold => Exhale
    case Exhale => Inhale
  }

  function Text(p: Phase): string
  {
    match p
    case Inhale => "Inhale..."
    case Hold => "Hold"
    case Exhale => "Exhale..."
  }

  /** The circle is expanded while the lungs are full. */
  function Scale(p: Phase): real
  {
    if p == Exhale then 1.0 else 1.5
  }

  /** The three displayed values and the one timeout armed, by its delay. */
  datatype Circle = Circle(phase: Phase, text: string, scale: real, pending: Option<nat>)

  /** The state before the cycle effect has run. */
  const FirstRender := Circle(Inhale, "Inhale", 1.0, None)

  /** Entering a phase: show it and arm a timeout for its length. */
  function Enter(p: Phase): (c: Circle)
    ensures c.phase == p && c.pending == Some(Duration(p))
  {
    Circle(p, Text(p), Scale(p), Some(Duration(p)))
  }

  /** The mount effect runs `runCycle` at once. */
  function Mount(c: Circle): (r: Circle)
    ensures r == Enter(Inhale)
  {
    Enter(Inhale)
  }

  /** The armed timeout fires; with none armed nothing happens. */
  function Fire(c: Circle): (r: Circle)
    ensures c.pending.None? ==> r == c
    ensures c.pending.Some? ==> r == Enter(Next(c.phase))
  {
    if c.pending.None? then c else Enter(Next(c.phase))
  }

  /** The cleanup clears the timeout armed last, which is the only one. */
  function Unmount(c: Circle): (r: Circle)
    ensures r.pending.None?
  {
    c.(pending := None)
  }

  function Fires(c: Circle, k: nat): Circle
    decreases k
  {
    if k == 0 then c else Fires(Fire(c), k - 1)
  }

  const Cycle: seq<Phase> := [Inhale, Hold, Exhale]

  /** The phase after `k` transitions from the start of a cycle. */
  function NthPhase(k: nat): Phase
  {
    Cycle[k % 3]
  }

  /** When the `k`-th transition fires, counted from mount. */
  function Elapsed(k: nat): nat
    decreases k
  {
    if k == 0 then 0 else Elapsed(k - 1) + Duration(NthPhase(k - 1))
  }

  /** Reference schedule: the phase shown `t` ms after mount, from the
      position within a 19 s cycle. */
  function PhaseAt(t: nat): Phase
  {
    var s := t % CycleMs;
    if s < 4000 then Inhale else if s < 11000 then Hold else Exhale
  }

  /** Where phase `j` of a cycle starts within the cycle. */
  function Offset(j: nat): nat
    requires j < 3
  {
    if j == 0 then 0 else if j == 1 then 4000 else 11000
  }

  /** The mounted circle shows inhale, then hold, then exhale, then inhale
      again: after `k` firings it is in phase `k mod 3` with that phase's
      timeout armed. */
  lemma {:induction false} FiresFollowCycle(k: nat)
    ensures Fires(Mount(FirstRender), k) == Enter(NthPhase(k))
  {
    FiresFrom(Inhale, 0, k);
  }

  lemma {:induction false} FiresFrom(p: Phase, i: nat, k: nat)
    requires p == NthPhase(i)
    ensures Fires(Enter(p), k) == Enter(NthPhase(i + k))
    decreases k
  {
    if k > 0 {
      assert Next(NthPhase(i)) == NthPhase(i + 1);
      FiresFrom(Next(p), i + 1, k - 1);
    }
  }

  /** The `k`-th transition happens `19000 * (k div 3)` ms plus the phase's
      offset into its cycle after mount. */
  lemma {:induction false} ElapsedClosed(k: nat)
    ensures Elapsed(k) == CycleMs * (k / 3) + Offset(k % 3)
    decreases k
  {
    if k > 0 {
      ElapsedClosed(k - 1);
      var q, j := (k - 1) / 3, (k - 1) % 3;
      if j == 2 {
        assert k / 3 == q + 1 && k % 3 == 0;
      } else {
        assert k / 3 == q && k % 3 == j + 1;
      }
    }
  }

  lemma CycleRemainder(t: nat, q: nat, s: nat)
    requires t == CycleMs * q + s && s < CycleMs
    ensures t % CycleMs == s
  {
  }

  /** Between the `k`-th and the next transition the circle shows what the
      reference schedule says for that moment. */
  lemma PhaseMatchesSchedule(k: nat, t: nat)
    requires Elapsed(k) <= t < Elapsed(k + 1)
    ensures Fires(Mount(FirstRender), k).phase == PhaseAt(t)
  {
    FiresFollowCycle(k);
    ElapsedClosed(k);
    var q, j := k / 3, k % 3;
    assert Elapsed(k + 1) == Elapsed(k) + Duration(NthPhase(k));
    CycleRemainder(t, q, t - CycleMs * q);
  }

  /** A whole cycle takes 19 s and returns to inhale. */
  lemma OneCycle()
    ensures Elapsed(3) == CycleMs
    ensures Fires(Mount(FirstRender), 3) == Mount(FirstRender)
  {
    FiresFollowCycle(3);
  }

  /** After unmount no timeout fires any more: the display is frozen. */
  lemma {:induction false} UnmountFreezes(c: Circle, k: nat)
    ensures Fires(Unmount(c), k) == Unmount(c)
    decreases k
  {
    if k > 0 {
      UnmountFreezes(c, k - 1);
    }
  }
}
