/** The backend health monitor: a probe every 5 s; three failures in a
    row show the "AI Offline" badge, and only a successful probe hides it. */
module SystemHealth {
  import opened Common

  const Threshold: nat := 3
  const PollMs: nat := 5000

  /** The failure counter (a ref), the offline flag, and whether the poll
      interval is still installed. */
  datatype Monitor = Monitor(failures: nat, isOffline: bool, polling: bool)

  const Mounted := Monitor(0, false, true)

  /** `checkHealth`: a success resets the counter and clears the flag; a
      failure counts; then the flag is raised once the counter reaches the
      threshold. A failure below the threshold leaves the flag alone. */
  function Probe(m: Monitor, ok: bool): (r: Monitor)
    ensures r.polling == m.polling
    ensures ok ==> r.failures == 0 && !r.isOffline
    ensures !ok ==> r.failures == m.failures + 1
    ensures !ok && m.failures + 1 >= Threshold ==> r.isOffline
    ensures !ok && m.failures + 1 < Threshold ==> r.isOffline == m.isOffline
  {
    var counted := if ok then m.(failures := 0, isOffline := false) else m.(failures := m.failures + 1);
    if counted.failures >= Threshold then counted.(isOffline := true) else counted
  }

  /** An interval tick: a probe while the interval is installed. */
  function Tick(m: Monitor, ok: bool): (r: Monitor)
    ensures !m.polling ==> r == m
    ensures m.polling ==> r == Probe(m, ok)
  {
    if m.polling then Probe(m, ok) else m
  }

  /** The cleanup clears the interval. */
  function Unmount(m: Monitor): (r: Monitor)
    ensures !r.polling && r.failures == m.failures && r.isOffline == m.isOffline
  {
    m.(polling := false)
  }

  /** The badge text, shown only while offline. */
  function Badge(m: Monitor): (b: Option<string>)
    ensures b.Some? <==> m.isOffline
  {
    if m.isOffline then Some("AI Offline") else None
  }

  /** The flag says exactly whether the last three or more probes failed. */
  predicate Inv(m: Monitor)
  {
    m.isOffline <==> m.failures >= Threshold
  }

  lemma ProbeKeepsInv(m: Monitor, ok: bool)
    requires Inv(m)
    ensures Inv(Probe(m, ok)) && Inv(Tick(m, ok)) && Inv(Unmount(m))
  {
  }

  /** Ticks with the given outcomes, in order. */
  function Run(m: Monitor, outcomes: seq<bool>): Monitor
    decreases |outcomes|
  {
    if |outcomes| == 0 then m else Run(Tick(m, outcomes[0]), outcomes[1..])
  }

  /** The outcomes since the last success: the failure streak. */
  function Streak(outcomes: seq<bool>): nat
    decreases |outcomes|
  {
    if |outcomes| == 0 then 0
    else if outcomes[|outcomes| - 1] then 0
    else Streak(outcomes[..|outcomes| - 1]) + 1
  }

  /** From mount, the badge shows exactly when the latest streak of failed
      probes is at least three long: two failures never show it, and a
      single success hides it again. */
  lemma {:induction false} OfflineIffThreeFailures(outcomes: seq<bool>)
    ensures Run(Mounted, outcomes).failures == Streak(outcomes)
    ensures Run(Mounted, outcomes).isOffline <==> Streak(outcomes) >= Threshold
    ensures Run(Mounted, outcomes).polling
  {
    RunStreak(Mounted, outcomes);
  }

  lemma {:induction false} RunStreak(m: Monitor, outcomes: seq<bool>)
    requires Inv(m) && m.polling
    ensures Run(m, outcomes).polling && Inv(Run(m, outcomes))
    ensures Run(m, outcomes).failures == (if Streak(outcomes) == |outcomes| then m.failures + |outcomes| else Streak(outcomes))
    decreases |outcomes|
  {
    if |outcomes| > 0 {
      var last := outcomes[|outcomes| - 1];
      var init := outcomes[..|outcomes| - 1];
      RunSplit(m, init, last);
      assert outcomes == init + [last];
      RunStreak(m, init);
      ProbeKeepsInv(Run(m, init), last);
      if !last && Streak(init) != |init| {
        assert Streak(outcomes) != |outcomes|;
      }
    }
  }

  lemma {:induction false} RunSplit(m: Monitor, init: seq<bool>, last: bool)
    ensures Run(m, init + [last]) == Tick(Run(m, init), last)
    decreases |init|
  {
    if |init| == 0 {
      assert init + [last] == [last];
    } else {
      assert (init + [last])[1..] == init[1..] + [last];
      RunSplit(Tick(m, init[0]), init[1..], last);
    }
  }

  /** Once unmounted, later ticks change nothing. */
  lemma {:induction false} UnmountStopsPolling(m: Monitor, outcomes: seq<bool>)
    ensures Run(Unmount(m), outcomes) == Unmount(m)
    decreases |outcomes|
  {
    if |outcomes| > 0 {
      UnmountStopsPolling(m, outcomes[1..]);
    }
  }
}
