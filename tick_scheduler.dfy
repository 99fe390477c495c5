/**
 * The interactive-mode tick: when a periodic wake is wanted, how long to wait
 * for the next one, and how the handler's queue of pending wakes evolves under
 * the host events that touch it. The queue holds only MSG_UPDATE_TIME
 * messages, so it is kept as the list of their delays.
 */
module TickScheduler {
  import JavaArith

  /** INTERACTIVE_UPDATE_RATE_MS: one second, in milliseconds. */
  const UpdateRateMs: int := 1000

  /**
   * Delay from the clock reading `timeMs` to the next whole second. The wake
   * always lands on a second boundary and is never immediate; from a
   * non-negative reading it is the first boundary strictly after `timeMs`, so
   * a reading already on a boundary waits a full second.
   */
  function DelayToNextTick(timeMs: int): (delayMs: int)
    ensures delayMs >= 1
    ensures (timeMs + delayMs) % UpdateRateMs == 0
    ensures timeMs >= 0 ==> delayMs <= UpdateRateMs
    ensures timeMs >= 0 ==> (timeMs + delayMs) / UpdateRateMs == timeMs / UpdateRateMs + 1
  {
    UpdateRateMs - JavaArith.Rem(timeMs, UpdateRateMs)
  }

  /** Half past two seconds waits half a second; exactly three seconds waits a full one. */
  lemma DelayExamples()
    ensures DelayToNextTick(2500) == 500
    ensures DelayToNextTick(3000) == 1000
  {
  }

  /** shouldTimerBeRunning: the tick runs only while visible and not ambient. */
  predicate ShouldRun(visible: bool, ambient: bool)
    ensures !visible ==> !ShouldRun(visible, ambient)
    ensures ambient ==> !ShouldRun(visible, ambient)
    ensures visible && !ambient ==> ShouldRun(visible, ambient)
  {
    visible && !ambient
  }

  /**
   * The scheduling state: the host's visibility and ambient flags and the
   * delays of the wakes pending in the handler's queue.
   */
  datatype TickState = TickState(visible: bool, ambient: bool, pending: seq<int>)

  /** The state of a freshly created engine: invisible, interactive, nothing queued. */
  const Initial := TickState(false, false, [])

  /**
   * updateTimer: cancel every pending wake, then queue one immediate wake
   * exactly when the tick should run. What was queued before has no effect.
   */
  function Reevaluate(s: TickState): (t: TickState)
    ensures t.visible == s.visible && t.ambient == s.ambient
    ensures |t.pending| == (if ShouldRun(s.visible, s.ambient) then 1 else 0)
    ensures forall d <- t.pending :: d == 0
  {
    s.(pending := if ShouldRun(s.visible, s.ambient) then [0] else [])
  }

  /**
   * handleUpdateTimeMessage's effect on the queue: the condition is checked
   * again at fire time, and only if it still holds is one wake queued, delayed
   * to the next whole second of the clock reading `nowMs`.
   */
  function Rearm(s: TickState, nowMs: int): (t: TickState)
    ensures t.visible == s.visible && t.ambient == s.ambient
    ensures ShouldRun(s.visible, s.ambient) ==> t.pending == s.pending + [DelayToNextTick(nowMs)]
    ensures !ShouldRun(s.visible, s.ambient) ==> t.pending == s.pending
  {
    if ShouldRun(s.visible, s.ambient) then s.(pending := s.pending + [DelayToNextTick(nowMs)])
    else s
  }

  /** The host events that reach the scheduler. */
  datatype HostEvent =
    | VisibilityChanged(visible: bool)
    | AmbientModeChanged(ambient: bool)
    | WakeFired(nowMs: int)

  /**
   * One event: a visibility or ambient change records the new flag and calls
   * updateTimer; a wake, when one is queued, leaves the queue and is handled.
   */
  function Step(s: TickState, e: HostEvent): (t: TickState)
    ensures e.VisibilityChanged? ==> t.visible == e.visible && t.ambient == s.ambient && Consistent(t)
    ensures e.AmbientModeChanged? ==> t.ambient == e.ambient && t.visible == s.visible && Consistent(t)
    ensures e.WakeFired? ==> t.visible == s.visible && t.ambient == s.ambient
    ensures e.WakeFired? && s.pending == [] ==> t == s
    ensures e.WakeFired? ==> |t.pending| <= |s.pending|
  {
    match e
    case VisibilityChanged(v) => Reevaluate(s.(visible := v))
    case AmbientModeChanged(a) => Reevaluate(s.(ambient := a))
    case WakeFired(nowMs) =>
      if s.pending == [] then s else Rearm(s.(pending := s.pending[1..]), nowMs)
  }

  /** A sequence of events, applied in order. */
  function Run(s: TickState, events: seq<HostEvent>): TickState
    decreases |events|
  {
    if events == [] then s else Run(Step(s, events[0]), events[1..])
  }

  /**
   * The scheduler's promise: exactly one wake is pending while the tick
   * should run, and none otherwise; wakes never pile up.
   */
  predicate Consistent(s: TickState)
  {
    |s.pending| == if ShouldRun(s.visible, s.ambient) then 1 else 0
  }

  /** Every single event keeps the promise. */
  lemma StepPreservesConsistent(s: TickState, e: HostEvent)
    requires Consistent(s)
    ensures Consistent(Step(s, e))
  {
  }

  /** Any sequence of events keeps the promise. */
  lemma {:induction false} RunPreservesConsistent(s: TickState, events: seq<HostEvent>)
    requires Consistent(s)
    ensures Consistent(Run(s, events))
    decreases |events|
  {
    if events != [] {
      StepPreservesConsistent(s, events[0]);
      RunPreservesConsistent(Step(s, events[0]), events[1..]);
    }
  }

  /**
   * From a freshly created engine, whatever the host does, at most one wake
   * is ever pending, and one is pending exactly when the tick should run.
   */
  lemma AtMostOneWake(events: seq<HostEvent>)
    ensures var s := Run(Initial, events);
            |s.pending| <= 1 &&
            (|s.pending| == 1 <==> ShouldRun(s.visible, s.ambient))
  {
    RunPreservesConsistent(Initial, events);
  }

  /**
   * updateTimer is idempotent: calling it again changes nothing, and its
   * outcome does not depend on what was pending before.
   */
  lemma ReevaluateIdempotent(s: TickState, pending: seq<int>)
    ensures Reevaluate(Reevaluate(s)) == Reevaluate(s)
    ensures Reevaluate(s.(pending := pending)) == Reevaluate(s)
  {
  }

  /**
   * The double check at fire time is defensive: if a wake were pending while
   * the tick should no longer run, handling it would queue nothing. The engine
   * never reaches such a state, since every flag change re-evaluates the timer
   * first and so keeps Consistent, which rules this premise out.
   */
  lemma StaleWakeNotRearmed(s: TickState, nowMs: int)
    requires |s.pending| == 1 && !ShouldRun(s.visible, s.ambient)
    ensures Step(s, WakeFired(nowMs)).pending == []
  {
  }
}
