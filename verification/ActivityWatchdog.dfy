/** The lazily re-armed idle watchdog (proxy/activity_watchdog.go). */
module ActivityWatchdog {
  import opened Common

  datatype Timer = Timer(deadline: int, generation: nat)

  datatype State = State(
    timeout: int, lastActivityAt: int, generation: nat, timer: Option<Timer>, stopped: bool, fired: bool)

  function Arm(s: State, now: int): State {
    if s.timeout <= 0 || s.stopped || s.fired then s else
      var delay := Max(s.timeout - (now - s.lastActivityAt), 0);
      s.(generation := s.generation + 1, timer := Some(Timer(now + delay, s.generation + 1)))
  }

  function New(timeout: int, now: int): State {
    Arm(State(timeout, now, 0, None, false, false), now)
  }

  function Touch(s: State, now: int): State {
    if s.timeout <= 0 || s.stopped || s.fired then s else s.(lastActivityAt := now)
  }

  function Stop(s: State): State {
    s.(stopped := true, timer := None)
  }

  /** A timer callback: the new state and whether the timeout action runs. */
  function Fire(s: State, generation: nat, now: int): (State, bool) {
    if s.stopped || s.fired || generation != s.generation then (s, false)
    else if Max(now - s.lastActivityAt, 0) < s.timeout then (Arm(s, now), false)
    else (s.(fired := true), true)
  }

  // ------------------------------------------------------------------ whole runs

  /**
   * The watchdog with the callbacks whose timer has expired but which have not run yet, and history:
   * when the current timer was armed and from which activity, when callbacks ran and when the action ran.
   */
  datatype World = World(
    s: State, clock: int, inflight: seq<nat>, armedAt: int, base: int, callbacks: seq<int>, actions: seq<int>)

  datatype Step = TouchAt(now: int) | StopAt(now: int) | Expire(now: int) | Callback(now: int)

  function Initial(timeout: int, now: int): World {
    World(New(timeout, now), now, [], now, now, [], [])
  }

  /** Timers never fire early; how late an expiry or its callback runs is up to the scheduler. */
  predicate Enabled(w: World, st: Step) {
    && st.now >= w.clock
    && (st.Expire? ==> w.s.timer.Some? && st.now >= w.s.timer.value.deadline)
    && (st.Callback? ==> w.inflight != [])
  }

  /** Ideal timers: time never passes an armed deadline, nor an expired callback, without it running. */
  predicate Ideal(w: World, st: Step) {
    && (w.s.timer.Some? ==> st.now <= w.s.timer.value.deadline)
    && (w.inflight != [] ==> st.now == w.clock)
  }

  function Apply(w: World, st: Step): World {
    match st
    case TouchAt(now) => w.(s := Touch(w.s, now), clock := now)
    case StopAt(now) => w.(s := Stop(w.s), clock := now)
    case Expire(now) =>
      if w.s.timer.None? then w.(clock := now)
      else w.(s := w.s.(timer := None), clock := now, inflight := w.inflight + [w.s.timer.value.generation])
    case Callback(now) =>
      if w.inflight == [] then w.(clock := now) else
        var (s, acted) := Fire(w.s, w.inflight[0], now);
        var rearmed := s.generation != w.s.generation;
        World(s, now, w.inflight[1..],
              if rearmed then now else w.armedAt, if rearmed then w.s.lastActivityAt else w.base,
              w.callbacks + [now], w.actions + if acted then [now] else [])
  }

  ghost predicate IsRun(timeout: int, ws: seq<World>, steps: seq<Step>) {
    && |ws| == |steps| + 1
    && ws[0] == Initial(timeout, ws[0].clock)
    && forall i :: 0 <= i < |steps| ==> Enabled(ws[i], steps[i]) && ws[i + 1] == Apply(ws[i], steps[i])
  }

  ghost predicate IsIdealRun(timeout: int, ws: seq<World>, steps: seq<Step>) {
    IsRun(timeout, ws, steps) && forall i :: 0 <= i < |steps| ==> Ideal(ws[i], steps[i])
  }

  ghost predicate Pending(w: World) {
    w.s.timer.Some? || w.inflight != []
  }

  /** Callbacks two apart are one timeout apart. */
  ghost predicate SpacedApart(cs: seq<int>, timeout: int) {
    forall k {:trigger cs[k]} :: 0 <= k < |cs| - 2 ==> cs[k] + timeout <= cs[k + 2]
  }

  ghost predicate Sound(timeout: int, w: World) {
    && w.s.timeout == timeout > 0
    && w.s.lastActivityAt <= w.clock && w.armedAt <= w.clock && w.base <= w.s.lastActivityAt
    && (w.s.lastActivityAt == w.base || w.s.lastActivityAt >= w.armedAt)
    && (w.s.timer.Some? ==> w.s.timer.value == Timer(w.base + timeout, w.s.generation) && w.inflight == [])
    && (w.inflight != [] ==> w.inflight == [w.s.generation] && w.clock >= w.base + timeout)
    && (!w.s.stopped && !w.s.fired ==> Pending(w))
    && (w.s.stopped || w.s.fired ==> w.s.timer.None?)
    && |w.actions| == (if w.s.fired then 1 else 0)
    && (w.callbacks != [] ==> w.callbacks[|w.callbacks| - 1] == w.armedAt || !Pending(w))
    && (|w.callbacks| >= 2 && Pending(w) ==> w.callbacks[|w.callbacks| - 2] + timeout <= w.base + timeout)
    && SpacedApart(w.callbacks, timeout)
  }

  lemma {:induction false} CallbackKeepsSound(timeout: int, w: World, now: int)
    requires Sound(timeout, w) && Enabled(w, Callback(now))
    ensures Sound(timeout, Apply(w, Callback(now)))
  {
    var w' := Apply(w, Callback(now));
    assert w'.callbacks[..|w.callbacks|] == w.callbacks;
  }

  lemma {:induction false} StepKeepsSound(timeout: int, w: World, st: Step)
    requires Sound(timeout, w) && Enabled(w, st)
    ensures Sound(timeout, Apply(w, st))
  {
    if st.Callback? {
      CallbackKeepsSound(timeout, w, st.now);
    }
  }

  lemma {:induction false} RunSound(timeout: int, ws: seq<World>, steps: seq<Step>, i: nat)
    requires IsRun(timeout, ws, steps) && timeout > 0 && i < |ws|
    ensures Sound(timeout, ws[i])
  {
    if i > 0 {
      RunSound(timeout, ws, steps, i - 1);
      StepKeepsSound(timeout, ws[i - 1], steps[i - 1]);
    }
  }

  /** However late callbacks run: the action runs at most once, and callbacks two apart are a timeout apart. */
  lemma {:induction false} AtMostOnceAndSpaced(timeout: int, ws: seq<World>, steps: seq<Step>, i: nat)
    requires IsRun(timeout, ws, steps) && timeout > 0 && i < |ws|
    ensures |ws[i].actions| <= 1
    ensures SpacedApart(ws[i].callbacks, timeout)
  {
    RunSound(timeout, ws, steps, i);
  }

  /** The action never runs before a full timeout without activity. */
  lemma {:induction false} NeverEarly(timeout: int, ws: seq<World>, steps: seq<Step>, i: nat)
    requires IsRun(timeout, ws, steps) && timeout > 0 && i < |steps|
    ensures ws[i + 1].actions != ws[i].actions ==>
              steps[i].Callback? && steps[i].now >= ws[i].s.lastActivityAt + timeout
  {
    RunSound(timeout, ws, steps, i);
  }

  lemma {:induction false} StoppedStays(timeout: int, ws: seq<World>, steps: seq<Step>, i: nat, j: nat)
    requires IsRun(timeout, ws, steps) && i < |steps| && steps[i].StopAt? && i < j < |ws|
    ensures ws[j].s.stopped && ws[j].actions == ws[i + 1].actions
  {
    if j > i + 1 {
      StoppedStays(timeout, ws, steps, i, j - 1);
      assert ws[j] == Apply(ws[j - 1], steps[j - 1]);
    }
  }

  /** Without a positive timeout nothing is ever armed and the action never runs. */
  lemma {:induction false} DisabledNeverActs(timeout: int, ws: seq<World>, steps: seq<Step>, i: nat)
    requires IsRun(timeout, ws, steps) && timeout <= 0 && i < |ws|
    ensures ws[i].s.timer.None? && ws[i].inflight == [] && ws[i].actions == [] && ws[i].s.timeout == timeout
  {
    if i > 0 {
      DisabledNeverActs(timeout, ws, steps, i - 1);
    }
  }

  // -------------------------------------------------- refinement of an eager timer

  /** What an observer of a timer reset on every touch sees in one step. */
  datatype Label = Touched | Stopped | Acted | Internal

  /** The eager timer: its deadline, if it is still armed. */
  function EagerDeadline(s: State): Option<int> {
    if s.stopped || s.fired then None else Some(s.lastActivityAt + s.timeout)
  }

  /** The eager timer's transitions: time stops at the deadline until the timer acts, is reset or is stopped. */
  ghost predicate EagerStep(timeout: int, d: Option<int>, seen: Label, now: int, d': Option<int>) {
    && (d.Some? ==> now <= d.value)
    && match seen
       case Touched => d' == if d.Some? then Some(now + timeout) else None
       case Stopped => d' == None
       case Acted => d == Some(now) && d' == None
       case Internal => d' == d
  }

  function LabelOf(w: World, st: Step): Label {
    match st
    case TouchAt(_) => Touched
    case StopAt(_) => Stopped
    case Expire(_) => Internal
    case Callback(now) => if w.inflight != [] && Fire(w.s, w.inflight[0], now).1 then Acted else Internal
  }

  /** With ideal timers nothing is ever overdue. */
  ghost predicate OnTime(w: World) {
    && (w.s.timer.Some? ==> w.clock <= w.s.timer.value.deadline)
    && (w.inflight != [] ==> w.clock == w.base + w.s.timeout)
  }

  lemma {:induction false} IdealStepOnTime(timeout: int, w: World, st: Step)
    requires Sound(timeout, w) && OnTime(w) && Enabled(w, st) && Ideal(w, st)
    ensures OnTime(Apply(w, st))
  {
  }

  lemma {:induction false} IdealRunOnTime(timeout: int, ws: seq<World>, steps: seq<Step>, i: nat)
    requires IsIdealRun(timeout, ws, steps) && timeout > 0 && i < |ws|
    ensures OnTime(ws[i])
  {
    if i > 0 {
      IdealRunOnTime(timeout, ws, steps, i - 1);
      RunSound(timeout, ws, steps, i - 1);
      IdealStepOnTime(timeout, ws[i - 1], steps[i - 1]);
    }
  }

  /**
   * The lazy watchdog refines a timer that is reset on every touch: with ideal timers each of its steps is
   * a step of that timer at the same instant. In particular the action runs exactly at last activity plus
   * timeout, and time never passes that instant unless it ran, activity came or the watchdog was stopped.
   */
  lemma {:induction false} LazyRefinesEager(timeout: int, ws: seq<World>, steps: seq<Step>, i: nat)
    requires IsIdealRun(timeout, ws, steps) && timeout > 0 && i < |steps|
    ensures EagerStep(timeout, EagerDeadline(ws[i].s), LabelOf(ws[i], steps[i]), steps[i].now,
        EagerDeadline(ws[i + 1].s))
    ensures LabelOf(ws[i], steps[i]).Acted? <==> ws[i + 1].actions != ws[i].actions
    ensures EagerDeadline(ws[0].s) == Some(ws[0].clock + timeout)
  {
    RunSound(timeout, ws, steps, i);
    IdealRunOnTime(timeout, ws, steps, i);
  }

  /** At the eager deadline the lazy watchdog is not asleep: its callback is due at that very instant and will act. */
  lemma {:induction false} DueAtDeadline(timeout: int, ws: seq<World>, steps: seq<Step>, i: nat)
    requires IsIdealRun(timeout, ws, steps) && timeout > 0 && i < |ws|
    requires EagerDeadline(ws[i].s) == Some(ws[i].clock)
    ensures ws[i].s.timer.Some? ==> ws[i].s.timer.value.deadline == ws[i].clock
    ensures ws[i].s.timer.None? ==> ws[i].inflight != [] && LabelOf(ws[i], Callback(ws[i].clock)).Acted?
  {
    RunSound(timeout, ws, steps, i);
    IdealRunOnTime(timeout, ws, steps, i);
  }

  // ------------------------------------------------------------------- the object

  class Watchdog {
    const timeout: int
    var lastActivityAt: int
    var generation: nat
    var timer: Option<Timer>
    var stopped: bool
    var fired: bool

    ghost function View(): State
      reads this
    {
      State(timeout, lastActivityAt, generation, timer, stopped, fired)
    }

    constructor (timeout: int, now: int)
      ensures View() == New(timeout, now)
    {
      this.timeout := timeout;
      lastActivityAt, generation, timer, stopped, fired := now, 0, None, false, false;
      new;
      if timeout > 0 {
        ArmLocked(now);
      }
    }

    method TouchNow(now: int)
      modifies this
      ensures View() == Touch(old(View()), now)
    {
      if timeout <= 0 {
        return;
      }
      if !stopped && !fired {
        lastActivityAt := now;
      }
    }

    method StopNow()
      modifies this
      ensures View() == Stop(old(View()))
    {
      stopped := true;
      timer := None;
    }

    method ArmLocked(now: int)
      modifies this
      ensures View() == Arm(old(View()), now)
    {
      if timeout <= 0 || stopped || fired {
        return;
      }
      generation := generation + 1;
      var delay := timeout - (now - lastActivityAt);
      if delay < 0 {
        delay := 0;
      }
      timer := Some(Timer(now + delay, generation));
    }

    method OnTimer(expected: nat, now: int) returns (acted: bool)
      modifies this
      ensures (View(), acted) == Fire(old(View()), expected, now)
    {
      if stopped || fired || expected != generation {
        return false;
      }
      var idleFor := now - lastActivityAt;
      if idleFor < 0 {
        idleFor := 0;
      }
      if idleFor < timeout {
        ArmLocked(now);
        return false;
      }
      fired := true;
      acted := true;
    }
  }
}
