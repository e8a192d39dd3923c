/** Waiting for an upstream slot on a generation channel (pool/protection.go). */
module AvailabilityWait {
  import opened Common
  import SP = SlotProtection

  /**
   * The slot tables, the generation of the notification channel and the channel each waiter sleeps on. A
   * channel is closed once the generation has passed it.
   */
  datatype State = State(world: SP.World, generation: nat, waiters: map<nat, nat>)

  datatype Step = Slot(step: SP.Step) | Register(request: nat) | Leave(request: nat)

  predicate Full(s: State, capacity: int) {
    0 < capacity <= |s.waiters|
  }

  /** Registering follows a busy answer, but not in the same critical section: slots may be freed in between. */
  predicate Enabled(dir: map<string, SP.Account>, capacity: int, s: State, st: Step) {
    match st
    case Slot(x) => SP.Enabled(dir, s.world, x)
    case Register(r) => r !in s.waiters && !Full(s, capacity)
    case Leave(r) => r in s.waiters
  }

  /** Reports and first releases signal; acquiring and releasing again do not. */
  predicate Signals(w: SP.World, x: SP.Step) {
    || x.RateLimitedAt? || x.SucceededAt?
    || (x.Release? && x.guard < |w.guards| && !w.guards[x.guard].released)
  }

  /** A signal closes the channel only if somebody is waiting. */
  function Signalled(s: State): State {
    if |s.waiters| == 0 then s else s.(generation := s.generation + 1)
  }

  function Registered(s: State, r: nat): State {
    s.(waiters := s.waiters[r := s.generation])
  }

  function Left(s: State, r: nat): State {
    s.(waiters := s.waiters - {r})
  }

  function Apply(up: SP.Config, s: State, st: Step): State {
    match st
    case Slot(x) =>
      var t := s.(world := SP.Apply(up, s.world, x));
      if Signals(s.world, x) then Signalled(t) else t
    case Register(r) => Registered(s, r)
    case Leave(r) => Left(s, r)
  }

  ghost predicate IsRun(
      up: SP.Config, dir: map<string, SP.Account>, capacity: int, ss: seq<State>, steps: seq<Step>) {
    && |ss| == |steps| + 1 && ss[0] == State(SP.Initial(ss[0].world.clock), ss[0].generation, map[])
    && forall i :: 0 <= i < |steps| ==>
         Enabled(dir, capacity, ss[i], steps[i]) && ss[i + 1] == Apply(up, ss[i], steps[i])
  }

  /** The request is blocked on a channel that nobody has closed. */
  predicate Sleeps(s: State, r: nat) {
    r in s.waiters && s.waiters[r] == s.generation
  }

  /** One of the accounts would be granted for the model at an instant. */
  predicate Ready(up: SP.Config, w: SP.World, accounts: seq<SP.Account>, model: string, now: int) {
    exists k :: 0 <= k < |accounts| && Grants(up, w, accounts[k], model, now)
  }

  /** The request registered in step i and has not left since. */
  predicate WaitsSince(ss: seq<State>, steps: seq<Step>, r: nat, i: nat, n: nat) {
    && i < n < |ss| && |ss| == |steps| + 1 && steps[i] == Register(r)
    && forall j :: i < j < n ==> steps[j] != Leave(r)
  }

  // ------------------------------------------------------------- what frees a slot

  lemma {:induction false} EnteredOnlyBusier(s: SP.Runtime, limit: int, at: int, now: int)
    ensures SP.StateBusy(SP.Enter(s, at), limit, now).None? ==> SP.StateBusy(s, limit, now).None?
    ensures SP.StateBusy(s.(inFlight := s.inFlight + 1), limit, now).None? ==> SP.StateBusy(s, limit, now).None?
  {
  }

  /** An acquisition frees nothing for anybody. */
  lemma {:induction false} AcquireOnlyBusier(
      up: SP.Config, s: SP.Slots, b: SP.Account, other: string, at: int, a: SP.Account, model: string, now: int)
    requires SP.TryAcquire(up, s, b, other, at).Granted?
    requires SP.TryAcquire(up, SP.TryAcquire(up, s, b, other, at).slots, a, model, now).Granted?
    ensures SP.TryAcquire(up, s, a, model, now).Granted?
  {
    var t := SP.TryAcquire(up, s, b, other, at).slots;
    AccountOnlyBusier(up, s, b, other, at, a, now);
    ModelOnlyBusier(up, s, b, other, at, a, model, now);
    ProfileOnlyBusier(up, s, b, other, at, a, model, now);
  }

  lemma {:induction false} AccountOnlyBusier(
      up: SP.Config, s: SP.Slots, b: SP.Account, other: string, at: int, a: SP.Account, now: int)
    requires SP.TryAcquire(up, s, b, other, at).Granted?
    ensures var t := SP.TryAcquire(up, s, b, other, at).slots;
      var limit := SP.AccountLimit(up, a);
      SP.StateBusy(SP.Get(t.accountUpstream, a.id), limit, now).None? ==>
        SP.StateBusy(SP.Get(s.accountUpstream, a.id), limit, now).None?
  {
    EnteredOnlyBusier(SP.Get(s.accountUpstream, a.id), SP.AccountLimit(up, a), at, now);
  }

  lemma {:induction false} ModelOnlyBusier(
      up: SP.Config, s: SP.Slots, b: SP.Account, other: string, at: int, a: SP.Account, model: string, now: int)
    requires SP.TryAcquire(up, s, b, other, at).Granted?
    ensures var t := SP.TryAcquire(up, s, b, other, at).slots;
      var limit := SP.ModelLimit(up, model);
      SP.StateBusy(SP.Get(t.upstream, (a.id, model)), limit, now).None? ==>
        SP.StateBusy(SP.Get(s.upstream, (a.id, model)), limit, now).None?
  {
    EnteredOnlyBusier(SP.Get(s.upstream, (a.id, model)), SP.ModelLimit(up, model), at, now);
  }

  lemma {:induction false} ProfileOnlyBusier(
      up: SP.Config, s: SP.Slots, b: SP.Account, other: string, at: int, a: SP.Account, model: string, now: int)
    requires SP.TryAcquire(up, s, b, other, at).Granted?
    ensures var t := SP.TryAcquire(up, s, b, other, at).slots;
      var limit := SP.ProfileLimit(up, a.profileArn, model);
      SP.StateBusy(SP.Get(t.profiles, (a.profileArn, model)), limit, now).None? ==>
        SP.StateBusy(SP.Get(s.profiles, (a.profileArn, model)), limit, now).None?
  {
    EnteredOnlyBusier(
      SP.Get(s.profiles, (a.profileArn, model)), SP.ProfileLimit(up, a.profileArn, model), at, now);
  }

  /** A step that does not signal frees nothing for anybody. */
  lemma {:induction false} SilentFreesNothing(
      up: SP.Config, w: SP.World, x: SP.Step, a: SP.Account, model: string, now: int)
    requires !Signals(w, x) && SP.TryAcquire(up, SP.Apply(up, w, x).slots, a, model, now).Granted?
    ensures SP.TryAcquire(up, w.slots, a, model, now).Granted?
  {
    if x.Acquire? && SP.TryAcquire(up, w.slots, x.account, x.model, x.now).Granted? {
      AcquireOnlyBusier(up, w.slots, x.account, x.model, x.now, a, model, now);
    }
  }

  // ------------------------------------------------------------------------ waking

  lemma {:induction false} SomebodyWaits(s: State, r: nat)
    requires r in s.waiters
    ensures |s.waiters| > 0
  {
    assert s.waiters.Keys != {};
  }

  lemma {:induction false} RunStep(
      up: SP.Config, dir: map<string, SP.Account>, capacity: int, ss: seq<State>, steps: seq<Step>, i: nat)
    requires IsRun(up, dir, capacity, ss, steps) && i < |steps|
    ensures Enabled(dir, capacity, ss[i], steps[i]) && ss[i + 1] == Apply(up, ss[i], steps[i])
  {
  }

  /** One step of somebody's wait: the channel stays, and a signal passes it. */
  lemma {:induction false} StepKeepsChannel(
      up: SP.Config, dir: map<string, SP.Account>, capacity: int, s: State, st: Step, r: nat)
    requires Enabled(dir, capacity, s, st) && r in s.waiters && st != Leave(r)
    ensures var t := Apply(up, s, st);
      && r in t.waiters && t.waiters[r] == s.waiters[r] && t.generation >= s.generation
      && (st.Slot? && Signals(s.world, st.step) ==> t.generation > s.generation)
  {
    SomebodyWaits(s, r);
  }

  lemma {:induction false} GenerationGrows(
      up: SP.Config, dir: map<string, SP.Account>, capacity: int, ss: seq<State>, steps: seq<Step>, i: nat, n: nat)
    requires IsRun(up, dir, capacity, ss, steps) && i <= n < |ss|
    ensures ss[i].generation <= ss[n].generation
  {
    if i < n {
      GenerationGrows(up, dir, capacity, ss, steps, i, n - 1);
      RunStep(up, dir, capacity, ss, steps, n - 1);
    }
  }

  lemma {:induction false} ChannelKept(
      up: SP.Config, dir: map<string, SP.Account>, capacity: int, ss: seq<State>, steps: seq<Step>, r: nat, i: nat,
      n: nat)
    requires IsRun(up, dir, capacity, ss, steps) && WaitsSince(ss, steps, r, i, n)
    ensures r in ss[n].waiters && ss[n].waiters[r] == ss[i].generation
  {
    RunStep(up, dir, capacity, ss, steps, i);
    forall j | i < j < n && r in ss[j].waiters
      ensures r in ss[j + 1].waiters && ss[j + 1].waiters[r] == ss[j].waiters[r]
    {
      ChannelAt(up, dir, capacity, ss, steps, r, j);
    }
    SameChannel(ss, r, i + 1, n);
  }

  lemma {:induction false} ChannelAt(
      up: SP.Config, dir: map<string, SP.Account>, capacity: int, ss: seq<State>, steps: seq<Step>, r: nat, j: nat)
    requires IsRun(up, dir, capacity, ss, steps) && j < |steps| && r in ss[j].waiters && steps[j] != Leave(r)
    ensures r in ss[j + 1].waiters && ss[j + 1].waiters[r] == ss[j].waiters[r]
  {
    RunStep(up, dir, capacity, ss, steps, j);
    StepKeepsChannel(up, dir, capacity, ss[j], steps[j], r);
  }

  lemma {:induction false} SameChannel(ss: seq<State>, r: nat, i: nat, n: nat)
    requires i <= n < |ss| && r in ss[i].waiters
    requires forall j :: i <= j < n && r in ss[j].waiters ==>
               r in ss[j + 1].waiters && ss[j + 1].waiters[r] == ss[j].waiters[r]
    ensures r in ss[n].waiters && ss[n].waiters[r] == ss[i].waiters[r]
  {
    if i < n {
      SameChannel(ss, r, i, n - 1);
      assert r in ss[n - 1 + 1].waiters;
    }
  }

  /** Every signal after a request registered wakes it. */
  lemma {:induction false} SignalsWake(
      up: SP.Config, dir: map<string, SP.Account>, capacity: int, ss: seq<State>, steps: seq<Step>, r: nat, i: nat,
      j: nat, n: nat)
    requires IsRun(up, dir, capacity, ss, steps) && WaitsSince(ss, steps, r, i, n)
    requires i < j < n && steps[j].Slot? && Signals(ss[j].world, steps[j].step)
    ensures !Sleeps(ss[n], r)
  {
    ChannelKept(up, dir, capacity, ss, steps, r, i, n);
    ChannelKept(up, dir, capacity, ss, steps, r, i, j);
    RunStep(up, dir, capacity, ss, steps, j);
    StepKeepsChannel(up, dir, capacity, ss[j], steps[j], r);
    GenerationGrows(up, dir, capacity, ss, steps, i, j);
    GenerationGrows(up, dir, capacity, ss, steps, j + 1, n);
  }

  predicate Grants(up: SP.Config, w: SP.World, a: SP.Account, model: string, now: int) {
    SP.TryAcquire(up, w.slots, a, model, now).Granted?
  }

  lemma {:induction false} SilentStep(
      up: SP.Config, s: State, st: Step, t: State, a: SP.Account, model: string, now: int)
    requires t == Apply(up, s, st) && (st.Slot? ==> !Signals(s.world, st.step)) && Grants(up, t.world, a, model, now)
    ensures Grants(up, s.world, a, model, now)
  {
    if st.Slot? {
      SilentFreesNothing(up, s.world, st.step, a, model, now);
    }
  }

  lemma {:induction false} SilentAt(
      up: SP.Config, dir: map<string, SP.Account>, capacity: int, ss: seq<State>, steps: seq<Step>, j: nat,
      a: SP.Account, model: string, now: int)
    requires IsRun(up, dir, capacity, ss, steps) && j < |steps|
    requires steps[j].Slot? ==> !Signals(ss[j].world, steps[j].step)
    ensures Grants(up, ss[j + 1].world, a, model, now) ==> Grants(up, ss[j].world, a, model, now)
  {
    RunStep(up, dir, capacity, ss, steps, j);
    if Grants(up, ss[j + 1].world, a, model, now) {
      SilentStep(up, ss[j], steps[j], ss[j + 1], a, model, now);
    }
  }

  lemma {:induction false} GrantedBack(
      up: SP.Config, ss: seq<State>, i: nat, n: nat, a: SP.Account, model: string, now: int)
    requires i <= n < |ss| && Grants(up, ss[n].world, a, model, now)
    requires forall j :: i <= j < n && Grants(up, ss[j + 1].world, a, model, now) ==>
        Grants(up, ss[j].world, a, model, now)
    ensures Grants(up, ss[i].world, a, model, now)
  {
    if i < n {
      assert Grants(up, ss[n - 1 + 1].world, a, model, now);
      GrantedBack(up, ss, i, n - 1, a, model, now);
    }
  }

  /** While a request sleeps, whatever it could have it could already have had from the state it registered in. */
  lemma {:induction false} NothingFreedInSleep(
      up: SP.Config, dir: map<string, SP.Account>, capacity: int, ss: seq<State>, steps: seq<Step>, r: nat, i: nat,
      n: nat, accounts: seq<SP.Account>, model: string, now: int)
    requires IsRun(up, dir, capacity, ss, steps) && WaitsSince(ss, steps, r, i, n) && Sleeps(ss[n], r)
    requires Ready(up, ss[n].world, accounts, model, now)
    ensures Ready(up, ss[i].world, accounts, model, now)
  {
    var k :| 0 <= k < |accounts| && Grants(up, ss[n].world, accounts[k], model, now);
    forall j | i <= j < n && steps[j].Slot? ensures !Signals(ss[j].world, steps[j].step) {
      if Signals(ss[j].world, steps[j].step) {
        SignalsWake(up, dir, capacity, ss, steps, r, i, j, n);
      }
    }
    forall j | i <= j < n && Grants(up, ss[j + 1].world, accounts[k], model, now)
      ensures Grants(up, ss[j].world, accounts[k], model, now)
    {
      SilentAt(up, dir, capacity, ss, steps, j, accounts[k], model, now);
    }
    GrantedBack(up, ss, i, n, accounts[k], model, now);
  }

  // --------------------------------------------------------------------- cooldowns

  predicate Ends(s: SP.Runtime, from: int, to: int) {
    s.cooldownUntil.Some? && from < s.cooldownUntil.value <= to
  }

  /** A cooldown that one of the accounts depends on ends after one instant and not after the other. */
  predicate CooldownEnds(w: SP.World, accounts: seq<SP.Account>, model: string, from: int, to: int) {
    exists k :: 0 <= k < |accounts| && AccountCooldownEnds(w, accounts[k], model, from, to)
  }

  predicate AccountCooldownEnds(w: SP.World, a: SP.Account, model: string, from: int, to: int) {
    || Ends(SP.Get(w.slots.accountUpstream, a.id), from, to)
    || Ends(SP.Get(w.slots.upstream, (a.id, model)), from, to)
    || Ends(SP.Get(w.slots.profiles, (a.profileArn, model)), from, to)
  }

  lemma {:induction false} GrantedEarlier(
      up: SP.Config, w: SP.World, a: SP.Account, model: string, from: int, to: int)
    requires from <= to && Grants(up, w, a, model, to)
    ensures Grants(up, w, a, model, from) || AccountCooldownEnds(w, a, model, from, to)
  {
  }

  lemma {:induction false} ReadyEarlier(
      up: SP.Config, w: SP.World, accounts: seq<SP.Account>, model: string, from: int, to: int)
    requires from <= to && Ready(up, w, accounts, model, to)
    ensures Ready(up, w, accounts, model, from) || CooldownEnds(w, accounts, model, from, to)
  {
    var k :| 0 <= k < |accounts| && Grants(up, w, accounts[k], model, to);
    GrantedEarlier(up, w, accounts[k], model, from, to);
  }

  /**
   * A waiter sleeps on a slot it could have only if the slot was free when it registered, or because a
   * cooldown ended since: the one thing that frees a slot without a signal.
   */
  lemma {:induction false} OnlyCooldownsEscape(
      up: SP.Config, dir: map<string, SP.Account>, capacity: int, ss: seq<State>, steps: seq<Step>, r: nat, i: nat,
      n: nat, accounts: seq<SP.Account>, model: string, registered: int, now: int)
    requires IsRun(up, dir, capacity, ss, steps) && WaitsSince(ss, steps, r, i, n) && registered <= now
    requires Sleeps(ss[n], r) && Ready(up, ss[n].world, accounts, model, now)
    ensures Ready(up, ss[i].world, accounts, model, registered)
            || CooldownEnds(ss[i].world, accounts, model, registered, now)
  {
    NothingFreedInSleep(up, dir, capacity, ss, steps, r, i, n, accounts, model, now);
    ReadyEarlier(up, ss[i].world, accounts, model, registered, now);
  }

  /** The request sleeps at some point of a run while it could have a slot at an instant up to a horizon. */
  ghost predicate SleepsReady(
      up: SP.Config, ss: seq<State>, steps: seq<Step>, r: nat, i: nat,
      accounts: seq<SP.Account>, model: string, registered: int, horizon: int) {
    exists n: nat, now: int ::
      WaitsSince(ss, steps, r, i, n) && registered <= now <= horizon
      && Sleeps(ss[n], r) && Ready(up, ss[n].world, accounts, model, now)
  }

  /**
   * As long as no cooldown it depends on ends, a waiter sleeps on a slot it could have exactly if it could
   * have one when it registered - a slot freed after its busy answer, when nobody was there to be told.
   */
  lemma {:induction false} SleepsOnFreeSlotIff(
      up: SP.Config, dir: map<string, SP.Account>, capacity: int, ss: seq<State>, steps: seq<Step>, r: nat, i: nat,
      accounts: seq<SP.Account>, model: string, registered: int, horizon: int)
    requires IsRun(up, dir, capacity, ss, steps) && i < |steps| && steps[i] == Register(r) && registered <= horizon
    requires !CooldownEnds(ss[i].world, accounts, model, registered, horizon)
    ensures SleepsReady(up, ss, steps, r, i, accounts, model, registered, horizon)
       <==> Ready(up, ss[i].world, accounts, model, registered)
  {
    RunStep(up, dir, capacity, ss, steps, i);
    if Ready(up, ss[i].world, accounts, model, registered) {
      assert WaitsSince(ss, steps, r, i, i + 1) && Sleeps(ss[i + 1], r);
      assert Ready(up, ss[i + 1].world, accounts, model, registered);
    }
    if n: nat, now: int :|
        WaitsSince(ss, steps, r, i, n) && registered <= now <= horizon
        && Sleeps(ss[n], r) && Ready(up, ss[n].world, accounts, model, now) {
      OnlyCooldownsEscape(up, dir, capacity, ss, steps, r, i, n, accounts, model, registered, now);
      NoEarlierEnd(ss[i].world, accounts, model, registered, now, horizon);
    }
  }

  lemma {:induction false} NoEarlierEnd(
      w: SP.World, accounts: seq<SP.Account>, model: string, from: int, to: int, horizon: int)
    requires to <= horizon && !CooldownEnds(w, accounts, model, from, horizon)
    ensures !CooldownEnds(w, accounts, model, from, to)
  {
    if k :| 0 <= k < |accounts| && AccountCooldownEnds(w, accounts[k], model, from, to) {
      assert AccountCooldownEnds(w, accounts[k], model, from, horizon);
    }
  }

  // ---------------------------------------------------------------- the lost signal

  const LIMITS := SP.Config(0, 0, map[], map[], 0, 0, true, 0, 0)
  const SINGLE := SP.Account("a", "", 1)
  const HELD := SP.Guard("a", "", "m", false)

  function Taken(): SP.World {
    var one := SP.Runtime(1, 0, None, 0, false);
    SP.World(SP.Slots(map["a" := one], map[("a", "m") := one], map[]), [HELD], 0)
  }

  function Given(): SP.World {
    SP.World(SP.Slots(map[], map[], map[]), [HELD.(released := true)], 0)
  }

  lemma {:induction false} SlotTaken()
    ensures SP.Apply(LIMITS, SP.Initial(0), SP.Acquire(SINGLE, "m", 0)) == Taken()
    ensures SP.TryAcquire(LIMITS, Taken().slots, SINGLE, "m", 0).Busy?
  {
    assert |"m"| == 1 && SP.AccountLimit(LIMITS, SINGLE) == 1 && SP.ModelLimit(LIMITS, "m") == 5;
  }

  lemma {:induction false} SlotGiven()
    ensures SP.Apply(LIMITS, Taken(), SP.Release(0, 0)) == Given()
  {
    assert |"m"| == 1;
    var one := SP.Runtime(1, 0, None, 0, false);
    assert map["a" := one] - {"a"} == map[] && map[("a", "m") := one] - {("a", "m")} == map[];
  }

  lemma {:induction false} GivenIsReady()
    ensures Ready(LIMITS, Given(), [SINGLE], "m", 0)
  {
    assert SP.AccountLimit(LIMITS, SINGLE) == 1 && SP.ModelLimit(LIMITS, "m") == 5;
    assert Grants(LIMITS, Given(), [SINGLE][0], "m", 0);
  }

  const STORY: seq<Step> := [Slot(SP.Acquire(SINGLE, "m", 0)), Slot(SP.Release(0, 0)), Register(7)]

  function Scenes(): seq<State> {
    [State(SP.Initial(0), 0, map[]), State(Taken(), 0, map[]), State(Given(), 0, map[]),
     State(Given(), 0, map[7 := 0])]
  }

  lemma {:induction false} TakenScene()
    ensures Apply(LIMITS, State(SP.Initial(0), 0, map[]), Slot(SP.Acquire(SINGLE, "m", 0))) == State(Taken(), 0, map[])
  {
    SlotTaken();
  }

  lemma {:induction false} GivenScene()
    ensures Apply(LIMITS, State(Taken(), 0, map[]), Slot(SP.Release(0, 0))) == State(Given(), 0, map[])
  {
    SlotGiven();
  }

  lemma {:induction false} WaitingScene()
    ensures Apply(LIMITS, State(Given(), 0, map[]), Register(7)) == State(Given(), 0, map[7 := 0])
  {
    assert map[][7 := 0] == map[7 := 0];
  }

  lemma {:induction false} SceneSteps(i: nat)
    requires i < 3
    ensures Scenes()[i + 1] == Apply(LIMITS, Scenes()[i], STORY[i])
  {
    if i == 0 {
      TakenScene();
    } else if i == 1 {
      GivenScene();
    } else {
      WaitingScene();
    }
  }

  /** It does happen: the release falls between the busy answer and the registration. */
  lemma {:induction false} ReleaseGoesUnheard()
      returns (dir: map<string, SP.Account>, ss: seq<State>, steps: seq<Step>)
    ensures IsRun(LIMITS, dir, 0, ss, steps) && |steps| == 3
    ensures SP.TryAcquire(LIMITS, ss[1].world.slots, SINGLE, "m", 0).Busy?
    ensures Sleeps(ss[3], 7) && Ready(LIMITS, ss[3].world, [SINGLE], "m", 0)
  {
    dir, ss, steps := map["a" := SINGLE], Scenes(), STORY;
    forall i | 0 <= i < 3 ensures ss[i + 1] == Apply(LIMITS, ss[i], steps[i]) {
      SceneSteps(i);
    }
    SlotTaken();
    GivenIsReady();
  }

  // ---------------------------------------------------------------------- the queue

  lemma {:induction false} RegisteredSize(s: State, r: nat)
    requires r !in s.waiters
    ensures |Registered(s, r).waiters| == |s.waiters| + 1
  {
    var t := Registered(s, r);
    DropOne(t.waiters, r);
    assert t.waiters - {r} == s.waiters;
  }

  lemma {:induction false} StepWithinCapacity(
      up: SP.Config, dir: map<string, SP.Account>, capacity: int, s: State, st: Step)
    requires Enabled(dir, capacity, s, st) && |s.waiters| <= capacity && capacity > 0
    ensures |Apply(up, s, st).waiters| <= capacity
  {
    match st
    case Slot(_) =>
    case Register(r) => RegisteredSize(s, r);
    case Leave(r) => DropOne(s.waiters, r);
  }

  /** A positive capacity bounds the waiters of every run. */
  lemma {:induction false} QueueWithinCapacity(
      up: SP.Config, dir: map<string, SP.Account>, capacity: int, ss: seq<State>, steps: seq<Step>, i: nat)
    requires IsRun(up, dir, capacity, ss, steps) && i < |ss| && capacity > 0
    ensures |ss[i].waiters| <= capacity
  {
    if i > 0 {
      QueueWithinCapacity(up, dir, capacity, ss, steps, i - 1);
      StepWithinCapacity(up, dir, capacity, ss[i - 1], steps[i - 1]);
    }
  }

  class AvailabilityQueue {
    var waitingRequests: nat
    var notify: nat
    const capacity: int

    /** The counter and the channel are those of the specification. */
    ghost predicate Holds(s: State) reads this {
      waitingRequests == |s.waiters| && notify == s.generation
    }

    constructor (capacity: int)
      ensures this.capacity == capacity && forall w :: Holds(State(w, 0, map[]))
    {
      this.capacity := capacity;
      waitingRequests, notify := 0, 0;
    }

    /** Joins the queue unless it is full and answers the channel to wait on. */
    method Subscribe(ghost s: State, ghost r: nat) returns (channel: Option<nat>)
      requires Holds(s) && r !in s.waiters
      modifies this
      ensures channel.None? <==> Full(s, capacity)
      ensures channel.None? ==> Holds(s)
      ensures channel.Some? ==> Holds(Registered(s, r)) && channel.value == Registered(s, r).waiters[r]
    {
      if capacity > 0 && waitingRequests >= capacity {
        return None;
      }
      RegisteredSize(s, r);
      waitingRequests := waitingRequests + 1;
      channel := Some(notify);
    }

    method Unsubscribe(ghost s: State, ghost r: nat)
      requires Holds(s) && r in s.waiters
      modifies this
      ensures Holds(Left(s, r))
    {
      DropOne(s.waiters, r);
      if waitingRequests > 0 {
        waitingRequests := waitingRequests - 1;
      }
    }

    /** Closes the channel that waiters hold, if there are any. */
    method SignalAvailability(ghost s: State)
      requires Holds(s)
      modifies this
      ensures Holds(Signalled(s))
    {
      if waitingRequests == 0 {
        return;
      }
      notify := notify + 1;
    }
  }
}
