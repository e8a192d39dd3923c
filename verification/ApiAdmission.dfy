/**
 * Per-key admission: concurrency with a bounded queue, fixed-window rates and a token ledger
 * (proxy/api_admission.go).
 */
module ApiAdmission {
  import opened Common

  /** Instants and durations are milliseconds. */
  const MINUTE := 60_000
  const SECOND := 1_000

  datatype Entry = Entry(requestsPerMinute: int, tokensPerMinute: int, maxConcurrency: int, queueCapacity: int)

  /** The notification channel is a generation number: every channel below `notify` has been closed. */
  datatype State = State(windowStarted: int, requests: int, tokens: int, inFlight: int, waiting: int, notify: nat)

  datatype Lease = Lease(reserved: int, window: Option<int>, finalized: bool, released: bool)

  function Fresh(now: int): State {
    State(now, 0, 0, 0, 0, 0)
  }

  function ResetWindow(s: State, now: int): State {
    if now - s.windowStarted >= MINUTE then s.(windowStarted := now, requests := 0, tokens := 0) else s
  }

  /** A limit error never asks for less than a second. */
  function RetryAfter(d: int): (r: int)
    ensures r >= SECOND && r >= d
  {
    if d < SECOND then SECOND else d
  }

  datatype Decision = Admitted | Blocked(channel: nat) | RateLimited(retryAfter: int) | QueueFull

  function LeaveQueue(s: State, queued: bool): State {
    if queued && s.waiting > 0 then s.(waiting := s.waiting - 1) else s
  }

  /** One pass of the acquire loop inside the lock. */
  function Attempt(e: Entry, s0: State, now: int, queued: bool): (State, Decision) {
    var s := ResetWindow(s0, now);
    if e.requestsPerMinute > 0 && s.requests >= e.requestsPerMinute then
      (LeaveQueue(s, queued), RateLimited(RetryAfter(MINUTE - (now - s.windowStarted))))
    else if e.maxConcurrency <= 0 || s.inFlight < e.maxConcurrency then
      var t := LeaveQueue(s, queued);
      (t.(inFlight := t.inFlight + 1, requests := t.requests + 1), Admitted)
    else if e.queueCapacity <= 0 || (!queued && s.waiting >= e.queueCapacity) then (s, QueueFull)
    else (if queued then s else s.(waiting := s.waiting + 1), Blocked(s.notify))
  }

  function ReleaseState(s: State): State {
    s.(inFlight := if s.inFlight > 0 then s.inFlight - 1 else s.inFlight, notify := s.notify + 1)
  }

  /** Reserving tokens: the new state and lease, or the wait when the limit would be passed. */
  function Reserve(e: Entry, s0: State, l: Lease, tokens: int, now: int): (State, Lease, Option<int>) {
    if tokens <= 0 || e.tokensPerMinute <= 0 then (s0, l, None) else
      var s := ResetWindow(s0, now);
      if s.tokens + tokens > e.tokensPerMinute then (s, l, Some(RetryAfter(MINUTE - (now - s.windowStarted)))) else
        var kept := if l.window == Some(s.windowStarted) then l.reserved else 0;
        (s.(tokens := s.tokens + tokens), l.(reserved := kept + tokens, window := Some(s.windowStarted)), None)
  }

  /** What a reconciling lease gives back: its reservation, if that was made in the current window. */
  function Credit(s: State, l: Lease): int {
    if l.window == Some(s.windowStarted) then l.reserved else 0
  }

  predicate Reconciles(e: Entry, l: Lease, actual: int) {
    e.tokensPerMinute > 0 && actual >= 0 && !l.finalized
  }

  function Reconcile(e: Entry, s0: State, l: Lease, actual: int, now: int): (State, Lease) {
    if !Reconciles(e, l, actual) then (s0, l) else
      var s := ResetWindow(s0, now);
      (s.(tokens := Max(s.tokens + actual - Credit(s, l), 0)), l.(finalized := true))
  }

  function AddTokens(s0: State, tokens: int, now: int): State {
    if tokens <= 0 then s0 else
      var s := ResetWindow(s0, now);
      s.(tokens := s.tokens + tokens)
  }

  // ------------------------------------------------------------------ whole runs

  datatype Admission = Admission(time: int, window: int)

  /**
   * The key's state, every lease issued, the queued requests with the channel each one is blocked on,
   * and history: what was settled, added or reserved too late in the current window, all window starts
   * and all admissions.
   */
  datatype World = World(
    state: State, leases: seq<Lease>, queue: map<nat, nat>, clock: int,
    settled: int, added: int, late: int, windows: seq<int>, admissions: seq<Admission>)

  datatype Step =
    | Arrive(request: nat, now: int)
    | Wake(request: nat, now: int)
    | Cancel(request: nat, now: int)
    | Release(lease: nat, now: int)
    | ReserveTokens(lease: nat, tokens: int, now: int)
    | ReconcileTokens(lease: nat, actual: int, now: int)
    | AddDirectly(tokens: int, now: int)

  function Initial(now: int): World {
    World(Fresh(now), [], map[], now, 0, 0, 0, [now], [])
  }

  /** A queued request re-enters the loop only after its channel was closed; it may give up at any time. */
  predicate Enabled(w: World, st: Step) {
    && st.now >= w.clock
    && match st
       case Arrive(r, _) => r !in w.queue
       case Wake(r, _) => r in w.queue && w.queue[r] < w.state.notify
       case Cancel(r, _) => r in w.queue
       case Release(l, _) => l < |w.leases|
       case ReserveTokens(l, _, _) => l < |w.leases|
       case ReconcileTokens(l, _, _) => l < |w.leases|
       case AddDirectly(_, _) => true
  }

  /** The history after the window may have been reset at this instant. */
  function Roll(w: World, now: int): World {
    if ResetWindow(w.state, now).windowStarted == w.state.windowStarted then w.(clock := now)
    else w.(clock := now, settled := 0, added := 0, late := 0, windows := w.windows + [now])
  }

  function Loop(e: Entry, w: World, r: nat, queued: bool, now: int): World {
    var (s, d) := Attempt(e, w.state, now, queued);
    var h := Roll(w, now).(state := s);
    match d
    case Admitted => h.(queue := w.queue - {r}, leases := w.leases + [Lease(0, None, false, false)],
                        admissions := w.admissions + [Admission(now, s.windowStarted)])
    case Blocked(c) => h.(queue := w.queue[r := c])
    case RateLimited(_) => h.(queue := w.queue - {r})
    case QueueFull => h
  }

  function Apply(e: Entry, w: World, st: Step): World {
    match st
    case Arrive(r, now) => Loop(e, w, r, false, now)
    case Wake(r, now) => Loop(e, w, r, true, now)
    case Cancel(r, now) => w.(clock := now, queue := w.queue - {r}, state := LeaveQueue(w.state, true))
    case Release(l, now) =>
      if l >= |w.leases| || w.leases[l].released then w.(clock := now)
      else w.(clock := now, state := ReleaseState(w.state), leases := w.leases[l := w.leases[l].(released := true)])
    case ReserveTokens(l, tokens, now) =>
      if l >= |w.leases| || tokens <= 0 || e.tokensPerMinute <= 0 then w.(clock := now) else
        var (s, lease, failed) := Reserve(e, w.state, w.leases[l], tokens, now);
        var h := Roll(w, now);
        h.(state := s, leases := w.leases[l := lease],
           late := h.late + if failed.None? && lease.finalized then tokens else 0)
    case ReconcileTokens(l, actual, now) =>
      if l >= |w.leases| || !Reconciles(e, w.leases[l], actual) then w.(clock := now) else
        var (s, lease) := Reconcile(e, w.state, w.leases[l], actual, now);
        var h := Roll(w, now);
        h.(state := s, leases := w.leases[l := lease], settled := h.settled + actual)
    case AddDirectly(tokens, now) =>
      if tokens <= 0 then w.(clock := now) else
        var h := Roll(w, now);
        h.(state := AddTokens(w.state, tokens, now), added := h.added + tokens)
  }

  ghost predicate IsRun(e: Entry, ws: seq<World>, steps: seq<Step>) {
    && |ws| == |steps| + 1
    && ws[0] == Initial(ws[0].clock)
    && forall i :: 0 <= i < |steps| ==> Enabled(ws[i], steps[i]) && ws[i + 1] == Apply(e, ws[i], steps[i])
  }

  // -------------------------------------------------------- concurrency and the queue

  function Unreleased(ls: seq<Lease>): nat {
    if ls == [] then 0 else Unreleased(ls[..|ls| - 1]) + if ls[|ls| - 1].released then 0 else 1
  }

  /** No waiter sleeps on an open channel unless all slots are taken. */
  ghost predicate CapacitySound(e: Entry, w: World) {
    && w.state.inFlight == Unreleased(w.leases)
    && (e.maxConcurrency > 0 ==> w.state.inFlight <= e.maxConcurrency)
    && w.state.waiting == |w.queue|
    && (w.queue != map[] ==> w.state.waiting <= e.queueCapacity)
    && (forall r :: r in w.queue ==> w.queue[r] <= w.state.notify)
    && (forall r :: r in w.queue && w.queue[r] == w.state.notify ==> 0 < e.maxConcurrency <= w.state.inFlight)
  }

  lemma {:induction false} UnreleasedUpdate(ls: seq<Lease>, i: nat, l: Lease)
    requires i < |ls|
    ensures Unreleased(ls[i := l])
            == Unreleased(ls) - (if ls[i].released then 0 else 1) + if l.released then 0 else 1
  {
    if i == |ls| - 1 {
      assert ls[i := l][..|ls| - 1] == ls[..|ls| - 1];
    } else {
      assert ls[i := l][..|ls| - 1] == ls[..|ls| - 1][i := l];
      UnreleasedUpdate(ls[..|ls| - 1], i, l);
    }
  }

  lemma {:induction false} UnreleasedAppend(ls: seq<Lease>, l: Lease)
    ensures Unreleased(ls + [l]) == Unreleased(ls) + if l.released then 0 else 1
  {
    assert (ls + [l])[..|ls|] == ls;
  }

  lemma {:induction false} RemoveSize(q: map<nat, nat>, r: nat)
    ensures |q - {r}| == |q| - if r in q then 1 else 0
  {
    assert (q - {r}).Keys == q.Keys - {r};
    assert |q.Keys| == |q|;
  }

  lemma {:induction false} InsertSize(q: map<nat, nat>, r: nat, c: nat)
    ensures |q[r := c]| == |q| + if r in q then 0 else 1
  {
    assert q[r := c].Keys == q.Keys + {r};
    assert |q.Keys| == |q|;
  }

  lemma {:induction false} LoopKeepsCapacity(e: Entry, w: World, r: nat, queued: bool, now: int)
    requires CapacitySound(e, w) && now >= w.clock
    requires queued <==> r in w.queue
    ensures CapacitySound(e, Loop(e, w, r, queued, now))
  {
    var d := Attempt(e, w.state, now, queued).1;
    if d.Admitted? {
      AdmittedKeepsCapacity(e, w, r, queued, now);
    } else if d.Blocked? {
      BlockedKeepsCapacity(e, w, r, queued, now);
    } else {
      RemoveSize(w.queue, r);
    }
  }

  lemma {:induction false} AdmittedKeepsCapacity(e: Entry, w: World, r: nat, queued: bool, now: int)
    requires CapacitySound(e, w) && (queued <==> r in w.queue) && Attempt(e, w.state, now, queued).1.Admitted?
    ensures CapacitySound(e, Loop(e, w, r, queued, now))
  {
    RemoveSize(w.queue, r);
    UnreleasedAppend(w.leases, Lease(0, None, false, false));
  }

  lemma {:induction false} BlockedKeepsCapacity(e: Entry, w: World, r: nat, queued: bool, now: int)
    requires CapacitySound(e, w) && (queued <==> r in w.queue) && Attempt(e, w.state, now, queued).1.Blocked?
    ensures CapacitySound(e, Loop(e, w, r, queued, now))
  {
    InsertSize(w.queue, r, w.state.notify);
  }

  lemma {:induction false} StepKeepsCapacity(e: Entry, w: World, st: Step)
    requires CapacitySound(e, w) && Enabled(w, st)
    ensures CapacitySound(e, Apply(e, w, st))
  {
    match st
    case Arrive(r, now) => LoopKeepsCapacity(e, w, r, false, now);
    case Wake(r, now) => LoopKeepsCapacity(e, w, r, true, now);
    case Cancel(r, now) => CancelKeepsCapacity(e, w, r, now);
    case Release(l, now) => ReleaseKeepsCapacity(e, w, l, now);
    case ReserveTokens(l, tokens, now) => LeaseUpdateKeepsCapacity(e, w, st);
    case ReconcileTokens(l, actual, now) => LeaseUpdateKeepsCapacity(e, w, st);
    case AddDirectly(tokens, now) => AddKeepsCapacity(e, w, tokens, now);
  }

  lemma {:induction false} CancelKeepsCapacity(e: Entry, w: World, r: nat, now: int)
    requires CapacitySound(e, w) && r in w.queue
    ensures CapacitySound(e, Apply(e, w, Cancel(r, now)))
  {
    RemoveSize(w.queue, r);
  }

  lemma {:induction false} AddKeepsCapacity(e: Entry, w: World, tokens: int, now: int)
    requires CapacitySound(e, w)
    ensures CapacitySound(e, Apply(e, w, AddDirectly(tokens, now)))
  {
  }

  lemma {:induction false} ReleaseKeepsCapacity(e: Entry, w: World, l: nat, now: int)
    requires CapacitySound(e, w) && l < |w.leases|
    ensures CapacitySound(e, Apply(e, w, Release(l, now)))
  {
    UnreleasedUpdate(w.leases, l, w.leases[l].(released := true));
    UnreleasedBound(w.leases, l);
  }

  lemma {:induction false} LeaseUpdateKeepsCapacity(e: Entry, w: World, st: Step)
    requires CapacitySound(e, w) && (st.ReserveTokens? || st.ReconcileTokens?) && st.lease < |w.leases|
    ensures CapacitySound(e, Apply(e, w, st))
  {
    var l := w.leases[st.lease];
    if st.ReserveTokens? {
      UnreleasedUpdate(w.leases, st.lease, Reserve(e, w.state, l, st.tokens, st.now).1);
    } else {
      UnreleasedUpdate(w.leases, st.lease, Reconcile(e, w.state, l, st.actual, st.now).1);
    }
  }

  lemma {:induction false} UnreleasedBound(ls: seq<Lease>, i: nat)
    requires i < |ls|
    ensures !ls[i].released ==> Unreleased(ls) > 0
  {
    if i < |ls| - 1 {
      UnreleasedBound(ls[..|ls| - 1], i);
    }
  }

  /**
   * In every interleaving: leases and queued requests are counted exactly and within bounds, and whenever
   * a slot is free the channel of every blocked waiter is already closed.
   */
  lemma {:induction false} NoWaiterSleepsOnFreeCapacity(e: Entry, ws: seq<World>, steps: seq<Step>, i: nat)
    requires IsRun(e, ws, steps) && i < |ws|
    ensures CapacitySound(e, ws[i])
    ensures ws[i].state.inFlight < e.maxConcurrency ==>
              forall r :: r in ws[i].queue ==> ws[i].queue[r] < ws[i].state.notify
  {
    if i > 0 {
      NoWaiterSleepsOnFreeCapacity(e, ws, steps, i - 1);
      StepKeepsCapacity(e, ws[i - 1], steps[i - 1]);
    }
  }

  // ------------------------------------------------------------------ the token ledger

  /** Reservations of the window that are still to be settled. */
  function Outstanding(ls: seq<Lease>, window: int): int {
    if ls == [] then 0
    else Outstanding(ls[..|ls| - 1], window) + Open(ls[|ls| - 1], window)
  }

  function Open(l: Lease, window: int): int {
    if !l.finalized && l.window == Some(window) then l.reserved else 0
  }

  ghost predicate LedgerExact(w: World) {
    && w.state.tokens == Outstanding(w.leases, w.state.windowStarted) + w.settled + w.added + w.late
    && w.settled >= 0 && w.added >= 0 && w.late >= 0
    && (forall i :: 0 <= i < |w.leases| ==>
          w.leases[i].reserved >= 0 && (w.leases[i].window.Some? ==> w.leases[i].window.value <= w.state.windowStarted))
  }

  lemma {:induction false} OutstandingUpdate(ls: seq<Lease>, i: nat, l: Lease, window: int)
    requires i < |ls|
    ensures Outstanding(ls[i := l], window) == Outstanding(ls, window) - Open(ls[i], window) + Open(l, window)
  {
    if i == |ls| - 1 {
      assert ls[i := l][..|ls| - 1] == ls[..|ls| - 1];
    } else {
      assert ls[i := l][..|ls| - 1] == ls[..|ls| - 1][i := l];
      OutstandingUpdate(ls[..|ls| - 1], i, l, window);
    }
  }

  lemma {:induction false} OutstandingAppend(ls: seq<Lease>, l: Lease, window: int)
    ensures Outstanding(ls + [l], window) == Outstanding(ls, window) + Open(l, window)
  {
    assert (ls + [l])[..|ls|] == ls;
  }

  lemma {:induction false} OutstandingBounds(ls: seq<Lease>, window: int)
    requires forall i :: 0 <= i < |ls| ==> ls[i].reserved >= 0
    ensures Outstanding(ls, window) >= 0
    ensures forall i :: 0 <= i < |ls| ==> Open(ls[i], window) <= Outstanding(ls, window)
    ensures (forall i :: 0 <= i < |ls| ==> ls[i].window != Some(window)) ==> Outstanding(ls, window) == 0
  {
    if ls != [] {
      OutstandingBounds(ls[..|ls| - 1], window);
    }
  }

  /** Rolling into a new window keeps the ledger exact: nothing can be outstanding in a window just opened. */
  lemma {:induction false} RollKeepsLedger(w: World, now: int)
    requires LedgerExact(w) && now >= w.clock
    ensures LedgerExact(Roll(w, now).(state := ResetWindow(w.state, now)))
  {
    OutstandingBounds(w.leases, ResetWindow(w.state, now).windowStarted);
  }

  lemma {:induction false} LoopKeepsLedger(e: Entry, w: World, r: nat, queued: bool, now: int)
    requires LedgerExact(w) && now >= w.clock
    ensures LedgerExact(Loop(e, w, r, queued, now))
  {
    RollKeepsLedger(w, now);
    var rolled := Roll(w, now).(state := ResetWindow(w.state, now));
    AdmitKeepsLedger(rolled);
    var leased := rolled.(leases := rolled.leases + [Lease(0, None, false, false)]);
    AttemptKeepsLedger(e, w.state, now, queued);
    LedgerFrame(if Attempt(e, w.state, now, queued).1.Admitted? then leased else rolled, Loop(e, w, r, queued, now));
  }

  lemma {:induction false} AttemptKeepsLedger(e: Entry, s: State, now: int, queued: bool)
    ensures var t := Attempt(e, s, now, queued).0;
      t.tokens == ResetWindow(s, now).tokens && t.windowStarted == ResetWindow(s, now).windowStarted
  {
  }

  lemma {:induction false} AdmitKeepsLedger(w: World)
    requires LedgerExact(w)
    ensures LedgerExact(w.(leases := w.leases + [Lease(0, None, false, false)]))
  {
    OutstandingAppend(w.leases, Lease(0, None, false, false), w.state.windowStarted);
  }

  lemma {:induction false} LedgerFrame(w: World, w': World)
    requires LedgerExact(w)
    requires w'.leases == w.leases && w'.settled == w.settled && w'.added == w.added && w'.late == w.late
    requires w'.state.windowStarted == w.state.windowStarted && w'.state.tokens == w.state.tokens
    ensures LedgerExact(w')
  {
  }

  lemma {:induction false} ReserveKeepsLedger(e: Entry, w: World, l: nat, tokens: int, now: int)
    requires LedgerExact(w) && now >= w.clock && l < |w.leases|
    ensures LedgerExact(Apply(e, w, ReserveTokens(l, tokens, now)))
  {
    RollKeepsLedger(w, now);
    OutstandingUpdate(w.leases, l, Reserve(e, w.state, w.leases[l], tokens, now).1,
        ResetWindow(w.state, now).windowStarted);
  }

  lemma {:induction false} ReconcileKeepsLedger(e: Entry, w: World, l: nat, actual: int, now: int)
    requires LedgerExact(w) && now >= w.clock && l < |w.leases|
    ensures LedgerExact(Apply(e, w, ReconcileTokens(l, actual, now)))
    ensures Reconciles(e, w.leases[l], actual) ==>
      var s := ResetWindow(w.state, now); s.tokens + actual - Credit(s, w.leases[l]) >= 0
  {
    RollKeepsLedger(w, now);
    var s := ResetWindow(w.state, now);
    OutstandingBounds(w.leases, s.windowStarted);
    OutstandingUpdate(w.leases, l, w.leases[l].(finalized := true), s.windowStarted);
  }

  lemma {:induction false} ReleaseKeepsLedger(e: Entry, w: World, l: nat, now: int)
    requires LedgerExact(w) && l < |w.leases|
    ensures LedgerExact(Apply(e, w, Release(l, now)))
  {
    OutstandingUpdate(w.leases, l, w.leases[l].(released := true), w.state.windowStarted);
  }

  lemma {:induction false} StepKeepsLedger(e: Entry, w: World, st: Step)
    requires LedgerExact(w) && Enabled(w, st)
    ensures LedgerExact(Apply(e, w, st))
  {
    match st
    case Arrive(r, now) => LoopKeepsLedger(e, w, r, false, now);
    case Wake(r, now) => LoopKeepsLedger(e, w, r, true, now);
    case Cancel(_, _) =>
    case Release(l, now) => ReleaseKeepsLedger(e, w, l, now);
    case ReserveTokens(l, tokens, now) => ReserveKeepsLedger(e, w, l, tokens, now);
    case ReconcileTokens(l, actual, now) => ReconcileKeepsLedger(e, w, l, actual, now);
    case AddDirectly(tokens, now) => RollKeepsLedger(w, now);
  }

  /**
   * In every run the token counter is exactly open reservations plus settled use plus direct additions of the
   * window.
   */
  lemma {:induction false} TokenLedgerIsExact(e: Entry, ws: seq<World>, steps: seq<Step>, i: nat)
    requires IsRun(e, ws, steps) && i < |ws|
    ensures LedgerExact(ws[i])
  {
    if i > 0 {
      TokenLedgerIsExact(e, ws, steps, i - 1);
      StepKeepsLedger(e, ws[i - 1], steps[i - 1]);
    }
  }

  /**
   * The first settlement of a lease, a use of zero included, charges the running minute with the use less what the
   * lease reserved in that minute; the clamp at zero never changes that. Any other settlement changes nothing.
   */
  lemma {:induction false} ClampNeverFires(e: Entry, ws: seq<World>, steps: seq<Step>, i: nat, l: nat, actual: int,
      now: int)
    requires IsRun(e, ws, steps) && i < |ws| && Enabled(ws[i], ReconcileTokens(l, actual, now))
    ensures var s, lease := ws[i].state, ws[i].leases[l]; var (t, m) := Reconcile(e, s, lease, actual, now);
      if e.tokensPerMinute <= 0 || actual < 0 || lease.finalized then (t, m) == (s, lease)
      else
        && m == lease.(finalized := true)
        && t.tokens == if s.windowStarted + 60_000 <= now then actual
                       else s.tokens + actual - if lease.window == Some(s.windowStarted) then lease.reserved else 0
  {
    TokenLedgerIsExact(e, ws, steps, i);
    ReconcileKeepsLedger(e, ws[i], l, actual, now);
  }

  /** A disciplined step: settled in the reservation's own window, for no more than reserved, nothing added directly. */
  predicate Disciplined(w: World, st: Step) {
    match st
    case ReconcileTokens(l, actual, now) =>
      l < |w.leases| && actual <= Credit(ResetWindow(w.state, now), w.leases[l])
    case AddDirectly(_, _) => false
    case _ => true
  }

  lemma {:induction false} DisciplinedStepKeepsCap(e: Entry, w: World, st: Step)
    requires e.tokensPerMinute > 0 && w.state.tokens <= e.tokensPerMinute
    requires Enabled(w, st) && Disciplined(w, st)
    ensures Apply(e, w, st).state.tokens <= e.tokensPerMinute
  {
  }

  /** If every step is disciplined, the window's tokens never exceed the limit. */
  lemma {:induction false} TokenCap(e: Entry, ws: seq<World>, steps: seq<Step>, i: nat)
    requires IsRun(e, ws, steps) && i < |ws| && e.tokensPerMinute > 0
    requires forall j :: 0 <= j < |steps| ==> Disciplined(ws[j], steps[j])
    ensures ws[i].state.tokens <= e.tokensPerMinute
  {
    if i > 0 {
      TokenCap(e, ws, steps, i - 1);
      DisciplinedStepKeepsCap(e, ws[i - 1], steps[i - 1]);
    }
  }

  /**
   * What a step adds beyond any check fits in the window: a settlement above its lease's credit, or a direct
   * addition.
   */
  predicate StepFits(e: Entry, w: World, st: Step) {
    var s := ResetWindow(w.state, st.now);
    match st
    case ReconcileTokens(l, actual, _) =>
      l < |w.leases| && Reconciles(e, w.leases[l], actual) ==>
          actual <= e.tokensPerMinute - s.tokens + Credit(s, w.leases[l])
    case AddDirectly(tokens, _) => tokens > 0 ==> tokens <= e.tokensPerMinute - s.tokens
    case _ => true
  }

  lemma {:induction false} LoopTokens(e: Entry, w: World, r: nat, queued: bool, now: int)
    ensures Loop(e, w, r, queued, now).state.tokens == ResetWindow(w.state, now).tokens
  {
  }

  /** From within the limit, exactly the steps that fit stay within it. */
  lemma {:induction false} StepKeepsCapIff(e: Entry, w: World, st: Step)
    requires e.tokensPerMinute > 0 && w.state.tokens <= e.tokensPerMinute && Enabled(w, st)
    ensures Apply(e, w, st).state.tokens <= e.tokensPerMinute <==> StepFits(e, w, st)
  {
    match st
    case Arrive(r, now) => LoopTokens(e, w, r, false, now);
    case Wake(r, now) => LoopTokens(e, w, r, true, now);
    case Cancel(_, _) =>
    case Release(_, _) =>
    case ReserveTokens(_, _, _) =>
    case ReconcileTokens(_, _, _) =>
    case AddDirectly(_, _) =>
  }

  lemma {:induction false} FittingKeepsCap(e: Entry, ws: seq<World>, steps: seq<Step>, i: nat)
    requires IsRun(e, ws, steps) && i < |ws| && e.tokensPerMinute > 0
    requires forall j :: 0 <= j < i ==> StepFits(e, ws[j], steps[j])
    ensures ws[i].state.tokens <= e.tokensPerMinute
  {
    if i > 0 {
      FittingKeepsCap(e, ws, steps, i - 1);
      StepKeepsCapIff(e, ws[i - 1], steps[i - 1]);
    }
  }

  /**
   * Over a run the limit is never passed exactly if every settlement and every direct addition fits when it is
   * made.
   */
  lemma {:induction false} CapKeptIff(e: Entry, ws: seq<World>, steps: seq<Step>)
    requires IsRun(e, ws, steps) && e.tokensPerMinute > 0
    ensures (forall i :: 0 <= i < |ws| ==> ws[i].state.tokens <= e.tokensPerMinute)
       <==> (forall i :: 0 <= i < |steps| ==> StepFits(e, ws[i], steps[i]))
  {
    if forall i :: 0 <= i < |ws| ==> ws[i].state.tokens <= e.tokensPerMinute {
      forall i | 0 <= i < |steps| ensures StepFits(e, ws[i], steps[i]) {
        StepKeepsCapIff(e, ws[i], steps[i]);
        assert ws[i + 1].state.tokens <= e.tokensPerMinute;
      }
    }
    if forall i :: 0 <= i < |steps| ==> StepFits(e, ws[i], steps[i]) {
      forall i | 0 <= i < |ws| ensures ws[i].state.tokens <= e.tokensPerMinute {
        FittingKeepsCap(e, ws, steps, i);
      }
    }
  }

  /** A lease that settles in a later window is charged in full there, past the limit. */
  lemma {:induction false} LateSettlementBreaksCap() returns (ws: seq<World>, steps: seq<Step>)
    ensures var e := Entry(0, 100, 0, 0);
      IsRun(e, ws, steps) && ws[|ws| - 1].state.tokens > e.tokensPerMinute
  {
    var e := Entry(0, 100, 0, 0);
    steps := [Arrive(0, 0), ReserveTokens(0, 100, 0), Arrive(1, MINUTE), ReserveTokens(1, 100, MINUTE),
        ReconcileTokens(0, 100, MINUTE)];
    var w0 := Initial(0);
    var w1 := Apply(e, w0, steps[0]);
    var w2 := Apply(e, w1, steps[1]);
    var w3 := Apply(e, w2, steps[2]);
    var w4 := Apply(e, w3, steps[3]);
    var w5 := Apply(e, w4, steps[4]);
    ws := [w0, w1, w2, w3, w4, w5];
  }

  // -------------------------------------------------------------- requests per minute

  /** Admissions charged to one window. */
  function Charged(as_: seq<Admission>, window: int): nat {
    if as_ == [] then 0 else Charged(as_[..|as_| - 1], window) + if as_[|as_| - 1].window == window then 1 else 0
  }

  /** Admissions with lo <= time < hi. */
  function Between(as_: seq<Admission>, lo: int, hi: int): nat {
    if as_ == [] then 0 else Between(as_[..|as_| - 1], lo, hi) + if lo <= as_[|as_| - 1].time < hi then 1 else 0
  }

  ghost predicate Spaced(ws: seq<int>) {
    forall i, j :: 0 <= i < j < |ws| ==> ws[i] + MINUTE <= ws[j]
  }

  ghost predicate RateSound(e: Entry, w: World) {
    && w.windows != [] && w.windows[|w.windows| - 1] == w.state.windowStarted <= w.clock
    && Spaced(w.windows)
    && w.state.requests == Charged(w.admissions, w.state.windowStarted)
    && ChargesBounded(w.admissions, e.requestsPerMinute)
    && AdmissionsPlaced(w.admissions, w.windows)
  }

  ghost predicate ChargesBounded(as_: seq<Admission>, limit: int) {
    forall v :: Charged(as_, v) <= limit
  }

  /** Every admission lies inside the minute of the window it was charged to. */
  ghost predicate AdmissionsPlaced(as_: seq<Admission>, windows: seq<int>) {
    forall i :: 0 <= i < |as_| ==>
      as_[i].window in windows && as_[i].window <= as_[i].time < as_[i].window + MINUTE
  }

  lemma {:induction false} ChargedZero(as_: seq<Admission>, window: int)
    requires forall i :: 0 <= i < |as_| ==> as_[i].window != window
    ensures Charged(as_, window) == 0
  {
    if as_ != [] {
      ChargedZero(as_[..|as_| - 1], window);
    }
  }

  lemma {:induction false} RollKeepsRate(e: Entry, w: World, now: int)
    requires RateSound(e, w) && now >= w.clock
    ensures RateSound(e, Roll(w, now).(state := ResetWindow(w.state, now)))
    ensures now < ResetWindow(w.state, now).windowStarted + MINUTE
  {
    if ResetWindow(w.state, now).windowStarted != w.state.windowStarted {
      var n := |w.windows|;
      forall i | 0 <= i < n ensures w.windows[i] + MINUTE <= now {
        assert i < n - 1 ==> w.windows[i] + MINUTE <= w.windows[n - 1];
      }
      ChargedZero(w.admissions, now);
    }
  }

  lemma {:induction false} ChargeOne(as_: seq<Admission>, a: Admission, limit: int)
    requires ChargesBounded(as_, limit) && Charged(as_, a.window) < limit
    ensures ChargesBounded(as_ + [a], limit) && Charged(as_ + [a], a.window) == Charged(as_, a.window) + 1
  {
    assert (as_ + [a])[..|as_|] == as_;
    forall v ensures Charged(as_ + [a], v) <= limit {
      assert Charged(as_, v) <= limit;
    }
  }

  lemma {:induction false} PlaceOne(as_: seq<Admission>, a: Admission, windows: seq<int>)
    requires AdmissionsPlaced(as_, windows) && a.window in windows && a.window <= a.time < a.window + MINUTE
    ensures AdmissionsPlaced(as_ + [a], windows)
  {
  }

  lemma {:induction false} AdmitKeepsRate(e: Entry, w: World, now: int)
    requires RateSound(e, w) && w.clock == now < w.state.windowStarted + MINUTE
    requires w.state.requests < e.requestsPerMinute
    ensures RateSound(e, OneMore(w, now))
  {
    ChargeOne(w.admissions, Admission(now, w.state.windowStarted), e.requestsPerMinute);
    PlaceOne(w.admissions, Admission(now, w.state.windowStarted), w.windows);
  }

  lemma {:induction false} LoopKeepsRate(e: Entry, w: World, r: nat, queued: bool, now: int)
    requires RateSound(e, w) && now >= w.clock && e.requestsPerMinute > 0
    ensures RateSound(e, Loop(e, w, r, queued, now))
  {
    RollKeepsRate(e, w, now);
    var rolled := Roll(w, now).(state := ResetWindow(w.state, now));
    LoopRate(e, w, r, queued, now);
    if Attempt(e, w.state, now, queued).1.Admitted? {
      AdmitKeepsRate(e, rolled, now);
      RateFrame(e, OneMore(rolled, now), Loop(e, w, r, queued, now));
    } else {
      RateFrame(e, rolled, Loop(e, w, r, queued, now));
    }
  }

  function OneMore(w: World, now: int): World {
    w.(state := w.state.(requests := w.state.requests + 1),
       admissions := w.admissions + [Admission(now, w.state.windowStarted)])
  }

  /** What a pass of the acquire loop does to the request count and the admissions. */
  lemma {:induction false} LoopRate(e: Entry, w: World, r: nat, queued: bool, now: int)
    requires e.requestsPerMinute > 0
    ensures var t := Loop(e, w, r, queued, now);
      var rolled := Roll(w, now).(state := ResetWindow(w.state, now));
      var next := if Attempt(e, w.state, now, queued).1.Admitted? then OneMore(rolled, now) else rolled;
      && t.windows == next.windows && t.admissions == next.admissions && t.clock == next.clock == now
      && t.state.windowStarted == next.state.windowStarted && t.state.requests == next.state.requests
      && (Attempt(e, w.state, now, queued).1.Admitted? ==> rolled.state.requests < e.requestsPerMinute)
  {
  }

  lemma {:induction false} RateFrame(e: Entry, w: World, w': World)
    requires RateSound(e, w)
    requires w'.windows == w.windows && w'.admissions == w.admissions && w'.clock == w.clock
    requires w'.state.windowStarted == w.state.windowStarted && w'.state.requests == w.state.requests
    ensures RateSound(e, w')
  {
  }

  lemma {:induction false} StepKeepsRate(e: Entry, w: World, st: Step)
    requires RateSound(e, w) && Enabled(w, st) && e.requestsPerMinute > 0
    ensures RateSound(e, Apply(e, w, st))
  {
    match st
    case Arrive(r, now) => LoopKeepsRate(e, w, r, false, now);
    case Wake(r, now) => LoopKeepsRate(e, w, r, true, now);
    case Cancel(_, _) => QuietKeepsRate(e, w, st);
    case Release(_, _) => QuietKeepsRate(e, w, st);
    case ReserveTokens(_, _, _) => QuietKeepsRate(e, w, st);
    case ReconcileTokens(_, _, _) => QuietKeepsRate(e, w, st);
    case AddDirectly(_, _) => QuietKeepsRate(e, w, st);
  }

  /** Steps that admit nobody leave the request count alone, but for a window that ran out. */
  lemma {:induction false} QuietSteps(e: Entry, w: World, st: Step)
    requires !st.Arrive? && !st.Wake?
    ensures var t := Apply(e, w, st);
      var rolled := Roll(w, st.now).(state := ResetWindow(w.state, st.now));
      && t.admissions == w.admissions && t.clock == st.now
      && (|| (t.windows == w.windows && t.state.windowStarted == w.state.windowStarted
          && t.state.requests == w.state.requests)
          || (t.windows == rolled.windows && t.state.windowStarted == rolled.state.windowStarted
              && t.state.requests == rolled.state.requests))
  {
  }

  lemma {:induction false} QuietKeepsRate(e: Entry, w: World, st: Step)
    requires RateSound(e, w) && st.now >= w.clock && !st.Arrive? && !st.Wake?
    ensures RateSound(e, Apply(e, w, st))
  {
    QuietSteps(e, w, st);
    RollKeepsRate(e, w, st.now);
    var t := Apply(e, w, st);
    var rolled := Roll(w, st.now).(state := ResetWindow(w.state, st.now));
    if t.windows == w.windows && t.state.windowStarted == w.state.windowStarted
        && t.state.requests == w.state.requests {
      RateFrame(e, w.(clock := st.now), t);
    } else {
      RateFrame(e, rolled, t);
    }
  }

  lemma {:induction false} RunKeepsRate(e: Entry, ws: seq<World>, steps: seq<Step>, i: nat)
    requires IsRun(e, ws, steps) && i < |ws| && e.requestsPerMinute > 0
    ensures RateSound(e, ws[i])
  {
    if i > 0 {
      RunKeepsRate(e, ws, steps, i - 1);
      StepKeepsRate(e, ws[i - 1], steps[i - 1]);
    }
  }

  lemma {:induction false} TwoWindowsCover(as_: seq<Admission>, lo: int, hi: int, u: int, v: int)
    requires forall i :: 0 <= i < |as_| && lo <= as_[i].time < hi ==> as_[i].window == u || as_[i].window == v
    ensures Between(as_, lo, hi) <= Charged(as_, u) + Charged(as_, v)
  {
    if as_ != [] {
      TwoWindowsCover(as_[..|as_| - 1], lo, hi, u, v);
    }
  }

  /** The last window that starts before a bound, if any. */
  lemma {:induction false} LastBefore(ws: seq<int>, bound: int) returns (j: int)
    requires Spaced(ws)
    ensures -1 <= j < |ws|
    ensures forall i :: 0 <= i < |ws| ==> (ws[i] < bound <==> i <= j)
  {
    j := -1;
    while j + 1 < |ws| && ws[j + 1] < bound
      invariant -1 <= j < |ws|
      invariant forall i :: 0 <= i <= j ==> ws[i] < bound
    {
      j := j + 1;
    }
    forall i | j < i < |ws| ensures ws[i] >= bound {
      assert i > j + 1 ==> ws[j + 1] + MINUTE <= ws[i];
    }
  }

  /** Over any run, every half-open minute contains at most twice the per-minute limit of admissions. */
  lemma {:induction false} SlidingRateBound(e: Entry, ws: seq<World>, steps: seq<Step>, i: nat, lo: int)
    requires IsRun(e, ws, steps) && i < |ws| && e.requestsPerMinute > 0
    ensures Between(ws[i].admissions, lo, lo + MINUTE) <= 2 * e.requestsPerMinute
  {
    RunKeepsRate(e, ws, steps, i);
    var w := ws[i];
    var starts := w.windows;
    var j := LastBefore(starts, lo + MINUTE);
    var u := if j >= 0 then starts[j] else 0;
    var v := if j >= 1 then starts[j - 1] else u;
    forall k | 0 <= k < |w.admissions| && lo <= w.admissions[k].time < lo + MINUTE
      ensures w.admissions[k].window == u || w.admissions[k].window == v
    {
      var x :| 0 <= x < |starts| && starts[x] == w.admissions[k].window;
      assert x <= j;
    }
    TwoWindowsCover(w.admissions, lo, lo + MINUTE, u, v);
    assert Charged(w.admissions, u) <= e.requestsPerMinute;
    assert Charged(w.admissions, v) <= e.requestsPerMinute;
  }

  // -------------------------------------------------------------- exact decisions

  /** Requests charged to the minute that is running now. */
  function RequestsNow(s: State, now: int): int {
    if s.windowStarted + 60_000 <= now then 0 else s.requests
  }

  /** How long until the minute that is running now is over, but at least a second. */
  function UntilNextWindow(s: State, now: int): int {
    if s.windowStarted + 60_000 <= now then 60_000 else Max(s.windowStarted + 60_000 - now, 1_000)
  }

  predicate RateSpent(e: Entry, s: State, now: int) {
    0 < e.requestsPerMinute <= RequestsNow(s, now)
  }

  predicate SlotsTaken(e: Entry, s: State) {
    0 < e.maxConcurrency <= s.inFlight
  }

  /** Each answer has its own condition: the rate comes first, then a free slot, then room in the queue. */
  lemma {:induction false} DecisionExact(e: Entry, s: State, now: int, queued: bool)
    ensures var d := Attempt(e, s, now, queued).1;
      && (d.RateLimited? <==> RateSpent(e, s, now))
      && (d.RateLimited? ==> d.retryAfter == UntilNextWindow(s, now))
      && (d.Admitted? <==> !RateSpent(e, s, now) && !SlotsTaken(e, s))
      && (d.QueueFull? <==> !RateSpent(e, s, now) && SlotsTaken(e, s)
                            && (e.queueCapacity <= 0 || (!queued && s.waiting >= e.queueCapacity)))
      && (d.Blocked? ==> d.channel == s.notify)
  {
  }

  /** Who waits as long as the answer says is not refused for the rate again. */
  lemma {:induction false} WaitSuffices(e: Entry, s: State, now: int, queued: bool, later: int)
    requires Attempt(e, s, now, queued).1.RateLimited? && later >= now + Attempt(e, s, now, queued).1.retryAfter
    ensures !Attempt(e, Attempt(e, s, now, queued).0, later, false).1.RateLimited?
  {
    DecisionExact(e, s, now, queued);
    DecisionExact(e, Attempt(e, s, now, queued).0, later, false);
  }

  lemma {:induction false} ChargedWithin(as_: seq<Admission>, windows: seq<int>, window: int, now: int)
    requires AdmissionsPlaced(as_, windows) && window <= now < window + MINUTE
    requires forall i :: 0 <= i < |as_| ==> as_[i].time <= now
    ensures Charged(as_, window) <= Between(as_, now - MINUTE + 1, now + 1)
  {
    if as_ != [] {
      var init := as_[..|as_| - 1];
      assert forall i :: 0 <= i < |init| ==> init[i] == as_[i];
      ChargedWithin(init, windows, window, now);
      assert as_[|as_| - 1].window in windows;
    }
  }

  lemma {:induction false} AdmissionsPast(e: Entry, ws: seq<World>, steps: seq<Step>, i: nat)
    requires IsRun(e, ws, steps) && i < |ws|
    ensures forall k :: 0 <= k < |ws[i].admissions| ==> ws[i].admissions[k].time <= ws[i].clock
  {
    if i > 0 {
      AdmissionsPast(e, ws, steps, i - 1);
      AdmitsNow(e, ws[i - 1], steps[i - 1]);
    }
  }

  lemma {:induction false} AdmitsNow(e: Entry, w: World, st: Step)
    ensures var t := Apply(e, w, st);
      t.clock == st.now && (t.admissions == w.admissions
                            || exists window :: t.admissions == w.admissions + [Admission(st.now, window)])
  {
    match st
    case Arrive(r, now) => LoopAdmits(e, w, r, false, now);
    case Wake(r, now) => LoopAdmits(e, w, r, true, now);
    case Cancel(_, _) =>
    case Release(_, _) =>
    case ReserveTokens(_, _, _) =>
    case ReconcileTokens(_, _, _) =>
    case AddDirectly(_, _) =>
  }

  lemma {:induction false} LoopAdmits(e: Entry, w: World, r: nat, queued: bool, now: int)
    ensures var t := Loop(e, w, r, queued, now);
      t.clock == now && (t.admissions == w.admissions
                         || t.admissions == w.admissions + [Admission(now, t.state.windowStarted)])
  {
  }

  /** Nobody is refused for the rate unless the limit was really used up within the minute before. */
  lemma {:induction false} RefusedOnlyWhenSpent(e: Entry, ws: seq<World>, steps: seq<Step>, i: nat, now: int,
      queued: bool)
    requires IsRun(e, ws, steps) && i < |ws| && now >= ws[i].clock
    requires Attempt(e, ws[i].state, now, queued).1.RateLimited?
    ensures e.requestsPerMinute > 0
    ensures Between(ws[i].admissions, now - MINUTE + 1, now + 1) >= e.requestsPerMinute
  {
    DecisionExact(e, ws[i].state, now, queued);
    RunKeepsRate(e, ws, steps, i);
    AdmissionsPast(e, ws, steps, i);
    ChargedWithin(ws[i].admissions, ws[i].windows, ws[i].state.windowStarted, now);
  }

  /**
   * Tokens are granted exactly if the open reservations, the settled use and the direct additions of the running
   * minute leave room for them; otherwise the wait is until the next minute.
   */
  lemma {:induction false} ReserveExact(e: Entry, ws: seq<World>, steps: seq<Step>, i: nat, l: nat, tokens: int,
      now: int)
    requires IsRun(e, ws, steps) && i < |ws| && l < |ws[i].leases| && now >= ws[i].clock
    ensures var w := ws[i]; var failed := Reserve(e, w.state, w.leases[l], tokens, now).2;
      var used := if w.state.windowStarted + 60_000 <= now then 0
                  else Outstanding(w.leases, w.state.windowStarted) + w.settled + w.added + w.late;
      && (failed.Some? <==> tokens > 0 && e.tokensPerMinute > 0 && used + tokens > e.tokensPerMinute)
      && (failed.Some? ==> failed.value == UntilNextWindow(w.state, now))
      && (failed.None? && tokens > 0 && e.tokensPerMinute > 0 ==>
            Reserve(e, w.state, w.leases[l], tokens, now).0.tokens == used + tokens)
  {
    TokenLedgerIsExact(e, ws, steps, i);
  }

  // ------------------------------------------------------------- the state object

  class KeyAdmission {
    const entry: Entry
    var windowStarted: int
    var requests: int
    var tokens: int
    var inFlight: int
    var waiting: int
    var notify: nat

    ghost function View(): State
      reads this
    {
      State(windowStarted, requests, tokens, inFlight, waiting, notify)
    }

    constructor (entry: Entry, now: int)
      ensures this.entry == entry && View() == Fresh(now)
    {
      this.entry := entry;
      windowStarted, requests, tokens, inFlight, waiting, notify := now, 0, 0, 0, 0, 0;
    }

    method ResetAdmissionWindow(now: int)
      modifies this
      ensures View() == ResetWindow(old(View()), now)
    {
      if now - windowStarted >= MINUTE {
        windowStarted, requests, tokens := now, 0, 0;
      }
    }

    /** One pass of the acquire loop; a Blocked answer names the channel to wait on. */
    method TryAdmit(now: int, queued: bool) returns (d: Decision)
      modifies this
      ensures (View(), d) == Attempt(entry, old(View()), now, queued)
    {
      ResetAdmissionWindow(now);
      if entry.requestsPerMinute > 0 && requests >= entry.requestsPerMinute {
        if queued && waiting > 0 {
          waiting := waiting - 1;
        }
        return RateLimited(RetryAfter(MINUTE - (now - windowStarted)));
      }
      if entry.maxConcurrency <= 0 || inFlight < entry.maxConcurrency {
        if queued && waiting > 0 {
          waiting := waiting - 1;
        }
        inFlight := inFlight + 1;
        requests := requests + 1;
        return Admitted;
      }
      if entry.queueCapacity <= 0 || (!queued && waiting >= entry.queueCapacity) {
        return QueueFull;
      }
      if !queued {
        waiting := waiting + 1;
      }
      d := Blocked(notify);
    }

    method CancelWait(queued: bool)
      modifies this
      ensures View() == LeaveQueue(old(View()), queued)
    {
      if queued && waiting > 0 {
        waiting := waiting - 1;
      }
    }

    method AddTokensDirectly(n: int, now: int)
      modifies this
      ensures View() == AddTokens(old(View()), n, now)
    {
      if n > 0 {
        ResetAdmissionWindow(now);
        tokens := tokens + n;
      }
    }
  }

  class AdmissionLease {
    const state: KeyAdmission
    var reservedTokens: int
    var reservationWindow: Option<int>
    var tokensFinalized: bool
    var released: bool

    ghost function View(): Lease
      reads this
    {
      Lease(reservedTokens, reservationWindow, tokensFinalized, released)
    }

    constructor (state: KeyAdmission)
      ensures this.state == state && View() == Lease(0, None, false, false)
    {
      this.state := state;
      reservedTokens, reservationWindow, tokensFinalized, released := 0, None, false, false;
    }

    method ReserveTokens(n: int, now: int) returns (failed: Option<int>)
      modifies this, state
      ensures (state.View(), View(), failed) == Reserve(state.entry, old(state.View()), old(View()), n, now)
    {
      if n <= 0 || state.entry.tokensPerMinute <= 0 {
        return None;
      }
      state.ResetAdmissionWindow(now);
      if state.tokens + n > state.entry.tokensPerMinute {
        return Some(RetryAfter(MINUTE - (now - state.windowStarted)));
      }
      state.tokens := state.tokens + n;
      if reservationWindow != Some(state.windowStarted) {
        reservationWindow := Some(state.windowStarted);
        reservedTokens := 0;
      }
      reservedTokens := reservedTokens + n;
      failed := None;
    }

    method ReconcileTokens(actual: int, now: int)
      modifies this, state
      ensures (state.View(), View()) == Reconcile(state.entry, old(state.View()), old(View()), actual, now)
    {
      if state.entry.tokensPerMinute <= 0 || actual < 0 || tokensFinalized {
        return;
      }
      state.ResetAdmissionWindow(now);
      var delta := actual;
      if reservationWindow == Some(state.windowStarted) {
        delta := delta - reservedTokens;
      }
      state.tokens := state.tokens + delta;
      if state.tokens < 0 {
        state.tokens := 0;
      }
      tokensFinalized := true;
    }

    method ReleaseSlot()
      modifies this, state
      ensures released
      ensures state.View() == if old(released) then old(state.View()) else ReleaseState(old(state.View()))
    {
      if released {
        return;
      }
      released := true;
      if state.inFlight > 0 {
        state.inFlight := state.inFlight - 1;
      }
      state.notify := state.notify + 1;
    }
  }
}
