/** The sleep timer: a one-second interval counting a number of seconds
    down, stopping playback when it runs out. Intervals are modelled as
    numbered handles; `live` holds the ones the runtime still fires. */
module SleepTimer {
  import opened Common
  import opened PlayerStore

  /** The preset durations, in minutes, as offered: 15m, 30m, 45m, 1h. */
  const Presets: seq<nat> := [15, 30, 45, 60]

  datatype Timer = Timer(
    isOpen: bool,
    timeLeft: Option<int>,
    handle: Option<nat>,
    live: set<nat>,
    nextHandle: nat,
    player: PlayerState,
    stops: nat)

  function Initial(player: PlayerState): Timer
  {
    Timer(false, None, None, {}, 0, player, 0)
  }

  /** At most one interval is running, and it is the one the ref holds. */
  predicate Inv(t: Timer)
  {
    (t.live == {} || (t.handle.Some? && t.live == {t.handle.value}))
    && forall h :: h in t.live ==> h < t.nextHandle
  }

  /** `clearInterval(timerRef.current)` when the ref holds a handle. */
  function ClearRef(t: Timer): (live: set<nat>)
    ensures live <= t.live
    ensures t.handle.Some? ==> t.handle.value !in live
  {
    if t.handle.Some? then t.live - {t.handle.value} else t.live
  }

  /** `startTimer(minutes)`: clears the old interval first, then starts a
      fresh one counting `minutes * 60` seconds. */
  function Start(t: Timer, minutes: int): (r: Timer)
    ensures r.timeLeft == Some(minutes * 60) && !r.isOpen
    ensures r.handle == Some(t.nextHandle) && t.nextHandle in r.live
    ensures Inv(t) ==> Inv(r) && r.live == {t.nextHandle}
    ensures r.player == t.player && r.stops == t.stops
  {
    Timer(false, Some(minutes * 60), Some(t.nextHandle), ClearRef(t) + {t.nextHandle}, t.nextHandle + 1, t.player, t.stops)
  }

  /** `cancelTimer`: clears the interval and the countdown; the ref keeps
      its stale handle. */
  function Cancel(t: Timer): (r: Timer)
    ensures r.timeLeft.None? && !r.isOpen
    ensures Inv(t) ==> Inv(r) && r.live == {}
    ensures r.player == t.player && r.stops == t.stops && r.handle == t.handle
  {
    t.(timeLeft := None, isOpen := false, live := ClearRef(t))
  }

  /** Interval `h` fires. A cleared interval never fires. With 1 second or
      less left (or no countdown) the tick clears the interval the ref
      holds, stops playback and drops the countdown; otherwise it counts one
      second down. */
  function Tick(t: Timer, h: nat): (r: Timer)
    ensures h !in t.live ==> r == t
    ensures h in t.live && t.timeLeft.Some? && t.timeLeft.value > 1 ==>
      r == t.(timeLeft := Some(t.timeLeft.value - 1))
    ensures h in t.live && (t.timeLeft.None? || t.timeLeft.value <= 1) ==>
      r.timeLeft.None? && !r.player.isPlaying && r.stops == t.stops + 1
    ensures Inv(t) ==> Inv(r)
  {
    if h !in t.live then t
    else if t.timeLeft.None? || t.timeLeft.value <= 1 then
      t.(live := ClearRef(t), player := SetIsPlaying(t.player, false), timeLeft := None, stops := t.stops + 1)
    else t.(timeLeft := Some(t.timeLeft.value - 1))
  }

  /** `k` consecutive firings of interval `h`. */
  function Ticks(t: Timer, h: nat, k: nat): Timer
    decreases k
  {
    if k == 0 then t else Ticks(Tick(t, h), h, k - 1)
  }

  /** With `n >= 1` seconds on the running interval, the first `k < n`
      ticks only count down, and playback stops exactly once, on tick `n`;
      later ticks find the interval cleared and do nothing. */
  lemma {:induction false} CountdownStopsOnce(t: Timer, n: int, k: nat)
    requires Inv(t) && t.handle.Some? && t.live == {t.handle.value}
    requires n >= 1 && t.timeLeft == Some(n)
    ensures var r := Ticks(t, t.handle.value, k);
      (k < n ==> r.timeLeft == Some(n - k) && r.stops == t.stops && r.player == t.player)
      && (k >= n ==> r.timeLeft.None? && r.stops == t.stops + 1 && !r.player.isPlaying && r.live == {})
    decreases k
  {
    var h := t.handle.value;
    if k > 0 {
      var t1 := Tick(t, h);
      if n > 1 {
        CountdownStopsOnce(t1, n - 1, k - 1);
      } else {
        assert t1.live == {} && t1.timeLeft.None?;
        StaysStopped(t1, h, k - 1);
      }
    }
  }

  /** Ticks of an interval that has been cleared change nothing. */
  lemma {:induction false} StaysStopped(t: Timer, h: nat, k: nat)
    requires h !in t.live
    ensures Ticks(t, h, k) == t
    decreases k
  {
    if k > 0 {
      StaysStopped(Tick(t, h), h, k - 1);
    }
  }

  /** A preset started from a consistent state stops playback after exactly
      `minutes * 60` ticks. */
  lemma PresetStopsAfterItsSeconds(t: Timer, i: nat)
    requires Inv(t) && i < |Presets|
    ensures var s := Start(t, Presets[i]);
      var r := Ticks(s, t.nextHandle, Presets[i] * 60);
      r.stops == t.stops + 1 && !r.player.isPlaying && r.timeLeft.None?
  {
    CountdownStopsOnce(Start(t, Presets[i]), Presets[i] * 60, Presets[i] * 60);
  }

  /** After a cancel nothing stops playback any more, whatever fires. */
  lemma CancelPreventsStop(t: Timer, h: nat, k: nat)
    requires Inv(t)
    ensures Ticks(Cancel(t), h, k).stops == t.stops
  {
    StaysStopped(Cancel(t), h, k);
  }

  // ---------------------------------------------------------------------
  // The countdown label

  /** `s.toString().padStart(2, "0")` for a seconds field below 60: the
      tens digit (a "0" pad below 10) and the units digit. */
  function Pad2(n: nat): (r: string)
    requires n < 60
    ensures |r| == 2 && IsDigit(r[0]) && IsDigit(r[1])
  {
    [DigitChar(n / 10), DigitChar(n % 10)]
  }

  /** `formatTime`: whole minutes, a colon, and the seconds left over as
      two digits. */
  function FormatTime(seconds: nat): (r: string)
    ensures |r| >= 4 && r[|r| - 3] == ':'
  {
    NatToString(seconds / 60) + ":" + Pad2(seconds % 60)
  }

  /** Reads an "m:ss" label back. */
  function ParseTime(text: string): int
  {
    if |text| < 4 then 0
    else ParseDecimal(text[..|text| - 3]) * 60 + ParseDecimal(text[|text| - 2..])
  }

  /** The label loses nothing: reading it back gives the seconds again. */
  lemma FormatTimeRoundTrip(seconds: nat)
    ensures ParseTime(FormatTime(seconds)) == seconds
  {
    var m, s := seconds / 60, seconds % 60;
    var text := FormatTime(seconds);
    assert text[..|text| - 3] == NatToString(m);
    assert text[|text| - 2..] == Pad2(s);
    ParseNatToString(m);
    ParseTwoDigits(s);
  }

  lemma ParseTwoDigits(n: nat)
    requires n < 60
    ensures ParseDecimal(Pad2(n)) == n
  {
    var p := Pad2(n);
    assert p[..1] == [DigitChar(n / 10)];
    assert p[..1][..0] == [];
    assert ParseDecimal(p[..1]) == n / 10;
    assert ParseDecimal(p) == ParseDecimal(p[..1]) * 10 + n % 10;
  }
}
