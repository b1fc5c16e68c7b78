/**
 * The emergency SOS button: activation starts a five-step countdown driven by
 * a one-second interval; the step that finds the count at most 1 stops the
 * interval and raises the SOS. Timers are events here: `liveIntervals` counts
 * the intervals not yet cleared, and each `Tick` is one firing of one of them.
 */
module Emergency {
  import opened Wrappers

  /** The screen's `countdown` (a number or `null`) and `sosActive`, with the
      intervals still running. */
  datatype SosState = SosState(countdown: Option<int>, sosActive: bool, liveIntervals: nat)

  const Idle := SosState(None, false, 0)
  const CountdownStart := 5

  /** JavaScript's ToNumber on the countdown: `null` becomes 0. */
  function ToNumber(value: Option<int>): int
  {
    match value
    case None => 0
    case Some(n) => n
  }

  /** `prev <= 1` as JavaScript evaluates it: `null <= 1` is `0 <= 1`, true. */
  function AtMostOne(prev: Option<int>): (r: bool)
    ensures prev.None? ==> r
    ensures prev.Some? ==> (r <==> prev.value <= 1)
  {
    ToNumber(prev) <= 1
  }

  /** activateSOS: the count is set to 5 and one more interval starts. */
  function Activate(s: SosState): (r: SosState)
    ensures Mode(r) == if s.sosActive then SosActivated else CountingDown(CountdownStart)
    ensures r.liveIntervals == s.liveIntervals + 1
  {
    s.(countdown := Some(CountdownStart), liveIntervals := s.liveIntervals + 1)
  }

  /** One firing of a live interval: at most 1 (or null) clears that interval,
      raises the SOS and empties the count; otherwise the count drops by one.
      With no live interval nothing fires. */
  function Tick(s: SosState): (t: SosState)
    ensures s.liveIntervals == 0 ==> t == s
    ensures t.liveIntervals <= s.liveIntervals
    ensures s.liveIntervals > 0 && s.countdown.None? ==> t == SosState(None, true, s.liveIntervals - 1)
    ensures s.liveIntervals > 0 && AtMostOne(s.countdown) ==> t == SosState(None, true, s.liveIntervals - 1)
    ensures s.liveIntervals > 0 && !AtMostOne(s.countdown) ==> t == s.(countdown := Some(s.countdown.value - 1))
  {
    if s.liveIntervals == 0 then s
    else if AtMostOne(s.countdown) then SosState(None, true, s.liveIntervals - 1)
    else s.(countdown := Some(ToNumber(s.countdown) - 1))
  }

  /** `k` consecutive firings. */
  function TickN(s: SosState, k: nat): SosState
    decreases k
  {
    if k == 0 then s else TickN(Tick(s), k - 1)
  }

  /** The "Cancel" button of the countdown, as written: the count and the SOS
      flag are reset, the interval keeps running. */
  function CancelCountdown(s: SosState): (r: SosState)
    ensures Mode(r) == ReadyToActivate
    ensures r.liveIntervals == s.liveIntervals
  {
    s.(countdown := None, sosActive := false)
  }

  /** The "Cancel Alert" button of an active SOS. */
  function CancelAlert(s: SosState): (r: SosState)
    ensures !r.sosActive
    ensures r.countdown == s.countdown && r.liveIntervals == s.liveIntervals
  {
    s.(sosActive := false)
  }

  /** What the SOS panel shows. */
  datatype DisplayMode = SosActivated | CountingDown(count: int) | ReadyToActivate

  /** The panel checks the SOS flag first, then whether a count is running. */
  function Mode(s: SosState): (m: DisplayMode)
    ensures m == SosActivated <==> s.sosActive
    ensures m.CountingDown? <==> !s.sosActive && s.countdown.Some?
    ensures m.CountingDown? ==> s.countdown == Some(m.count)
    ensures m == ReadyToActivate <==> !s.sosActive && s.countdown.None?
  {
    if s.sosActive then SosActivated
    else if s.countdown.Some? then CountingDown(s.countdown.value)
    else ReadyToActivate
  }

  /** With one interval running and the count at `n`, the first `n - 1` ticks
      count down and keep the SOS off; the `n`th raises it and stops the interval. */
  lemma {:induction false} CountdownRuns(s: SosState, n: int, k: nat)
    requires n >= 1 && s == SosState(Some(n), false, 1)
    requires k <= n
    decreases k
    ensures k < n ==> TickN(s, k) == SosState(Some(n - k), false, 1)
    ensures k == n ==> TickN(s, k) == SosState(None, true, 0)
  {
    if k > 0 {
      var next := Tick(s);
      assert TickN(s, k) == TickN(next, k - 1);
      if n == 1 {
        assert AtMostOne(s.countdown);
        assert next == SosState(None, true, 0);
      } else {
        assert !AtMostOne(s.countdown);
        assert next == SosState(Some(n - 1), false, 1);
        CountdownRuns(next, n - 1, k - 1);
      }
    }
  }

  /** Once the SOS is raised no interval is left, so later ticks change nothing. */
  lemma {:induction false} NoTickAfterStop(s: SosState, k: nat)
    requires s.liveIntervals == 0
    decreases k
    ensures TickN(s, k) == s
  {
    if k > 0 {
      NoTickAfterStop(Tick(s), k - 1);
    }
  }

  /** From the idle screen, activation without a cancel raises the SOS on
      exactly the 5th tick; before it the panel counts 5, 4, 3, 2, 1. */
  lemma FifthTickActivates(k: nat)
    ensures k < CountdownStart ==> !TickN(Activate(Idle), k).sosActive
                                   && Mode(TickN(Activate(Idle), k)) == CountingDown(CountdownStart - k)
    ensures k >= CountdownStart ==> TickN(Activate(Idle), k) == SosState(None, true, 0)
  {
    var s := Activate(Idle);
    if k <= CountdownStart {
      CountdownRuns(s, CountdownStart, k);
    } else {
      CountdownRuns(s, CountdownStart, CountdownStart);
      TickNSplit(s, CountdownStart, k - CountdownStart);
      NoTickAfterStop(TickN(s, CountdownStart), k - CountdownStart);
    }
  }

  lemma {:induction false} TickNSplit(s: SosState, a: nat, b: nat)
    decreases a
    ensures TickN(s, a + b) == TickN(TickN(s, a), b)
  {
    if a > 0 {
      TickNSplit(Tick(s), a - 1, b);
    }
  }

  /** The defect: "Cancel" during the countdown shows the idle button, yet the
      interval is still live; its next firing reads `prev = null`, finds
      `null <= 1` true and raises the SOS. Any cancel after 0 to 4 ticks ends so. */
  lemma CancelThenTickActivates(k: nat)
    requires k < CountdownStart
    ensures Mode(CancelCountdown(TickN(Activate(Idle), k))) == ReadyToActivate
    ensures Tick(CancelCountdown(TickN(Activate(Idle), k))) == SosState(None, true, 0)
  {
    CountdownRuns(Activate(Idle), CountdownStart, k);
  }

  /** The evidently intended "Cancel": it also clears the interval that
      activation started. */
  function CancelCountdownClearing(s: SosState): (r: SosState)
    ensures Mode(r) == ReadyToActivate
    ensures s.liveIntervals > 0 ==> r.liveIntervals == s.liveIntervals - 1
    ensures s.liveIntervals <= 1 ==> r == Idle
  {
    SosState(None, false, if s.liveIntervals > 0 then s.liveIntervals - 1 else 0)
  }

  /** With the corrected cancel, a cancel after 0 to 4 ticks leaves no interval
      running, so no later tick raises the SOS and the screen stays ready. */
  lemma CorrectedCancelStaysCancelled(k: nat, later: nat)
    requires k < CountdownStart
    ensures Mode(TickN(CancelCountdownClearing(TickN(Activate(Idle), k)), later)) == ReadyToActivate
  {
    CountdownRuns(Activate(Idle), CountdownStart, k);
    NoTickAfterStop(CancelCountdownClearing(TickN(Activate(Idle), k)), later);
  }

  /** The screen's state variables, changed step by step by the handlers. */
  class EmergencyScreen {
    var countdown: Option<int>
    var sosActive: bool
    var liveIntervals: nat

    function State(): SosState
      reads this
    {
      SosState(countdown, sosActive, liveIntervals)
    }

    constructor ()
      ensures State() == Idle
    {
      countdown, sosActive, liveIntervals := None, false, 0;
    }

    /** activateSOS */
    method ActivateSOS()
      modifies this
      ensures State() == Activate(old(State()))
    {
      countdown := Some(CountdownStart);
      liveIntervals := liveIntervals + 1;
    }

    /** One run of the interval callback, the functional update of `countdown`. */
    method IntervalTick()
      modifies this
      ensures State() == Tick(old(State()))
    {
      if liveIntervals > 0 {
        var prev := countdown;
        if ToNumber(prev) <= 1 {
          liveIntervals := liveIntervals - 1;
          sosActive := true;
          countdown := None;
        } else {
          countdown := Some(ToNumber(prev) - 1);
        }
      }
    }

    /** The countdown's "Cancel" button. */
    method Cancel()
      modifies this
      ensures State() == CancelCountdown(old(State()))
    {
      countdown := None;
      sosActive := false;
    }

    /** The active alert's "Cancel Alert" button. */
    method CancelSosAlert()
      modifies this
      ensures State() == CancelAlert(old(State()))
    {
      sosActive := false;
    }
  }

  /** The defect seen through the screen: activate, wait two ticks, cancel; the
      next tick raises the SOS. */
  method CancelScenario()
  {
    var screen := new EmergencyScreen();
    screen.ActivateSOS();
    screen.IntervalTick();
    screen.IntervalTick();
    assert screen.countdown == Some(3);
    screen.Cancel();
    assert Mode(screen.State()) == ReadyToActivate;
    screen.IntervalTick();
    assert screen.sosActive;
  }
}
