/** When two half-open probes of one key can be in flight together (pool/protection.go). */
module HalfOpenProbes {
  import opened Common
  import opened SlotProtection

  /** The step is granted and turns the key half-open: it sends a probe. */
  predicate Probes(up: Config, w: World, st: Step, k: Key) {
    && st.Acquire? && TryAcquire(up, w.slots, st.account, st.model, st.now).Granted?
    && !At(w.slots, k).halfOpenProbe && At(Apply(up, w, st).slots, k).halfOpenProbe
  }

  /** The step reports a rate limit or a success for the key. */
  predicate Reports(st: Step, k: Key) {
    && (st.RateLimitedAt? || st.SucceededAt?)
    && (k == ModelKey(st.id, st.model) || k == ProfileKey(st.arn, st.model))
  }

  /** The probe's guard is the only unreleased one on the half-open key. */
  predicate ProbeAlone(w: World, k: Key, g: nat) {
    && g < |w.guards| && !w.guards[g].released && Matches(w.guards[g], k)
    && Live(w.guards, k) == 1 && At(w.slots, k).halfOpenProbe
  }

  lemma {:induction false} TwoLive(gs: seq<Guard>, g: nat, h: nat, k: Key)
    requires g < h < |gs| && !gs[g].released && !gs[h].released && Matches(gs[g], k) && Matches(gs[h], k)
    ensures Live(gs, k) >= 2
  {
    if h == |gs| - 1 {
      LivePositive(gs[..|gs| - 1], g, k);
    } else {
      TwoLive(gs[..|gs| - 1], g, h, k);
    }
  }

  lemma {:induction false} OthersDoNotMatch(w: World, k: Key, g: nat, h: nat)
    requires ProbeAlone(w, k, g) && h < |w.guards| && h != g && !w.guards[h].released
    ensures !Matches(w.guards[h], k)
  {
    if Matches(w.guards[h], k) {
      if g < h {
        TwoLive(w.guards, g, h, k);
      } else {
        TwoLive(w.guards, h, g, k);
      }
    }
  }

  /** A half-open key refuses everyone who would be counted on it. */
  lemma {:induction false} HalfOpenRefuses(up: Config, dir: map<string, Account>, w: World, a: Account, model: string,
      now: int, k: Key)
    requires KeySound(up, dir, k, At(w.slots, k), Live(w.guards, k), w.clock) && At(w.slots, k).halfOpenProbe
    requires TryAcquire(up, w.slots, a, model, now).Granted?
    ensures !Matches(Guard(a.id, a.profileArn, model, false), k)
  {
  }

  lemma {:induction false} AcquireElsewhere(up: Config, w: World, a: Account, model: string, now: int, k: Key)
    requires !k.AccountKey? && TryAcquire(up, w.slots, a, model, now).Granted?
        && !Matches(Guard(a.id, a.profileArn, model, false), k)
    ensures At(TryAcquire(up, w.slots, a, model, now).slots, k) == At(w.slots, k)
  {
  }

  lemma {:induction false} ReleaseElsewhere(up: Config, s: Slots, g: Guard, now: int, k: Key)
    requires !k.AccountKey? && !Matches(g, k)
    ensures At(ReleaseSlot(up, s, g.accountID, g.profileArn, g.model, now), k) == At(s, k)
  {
  }

  lemma {:induction false} ReportElsewhere(up: Config, w: World, st: Step, k: Key)
    requires !k.AccountKey? && !Reports(st, k) && (st.RateLimitedAt? || st.SucceededAt?)
    ensures At(Apply(up, w, st).slots, k) == At(w.slots, k) && Apply(up, w, st).guards == w.guards
  {
  }

  lemma {:induction false} ProbeStaysAlone(up: Config, dir: map<string, Account>, w: World, st: Step, k: Key, g: nat)
    requires KeySound(up, dir, k, At(w.slots, k), Live(w.guards, k), w.clock)
    requires !k.AccountKey? && ProbeAlone(w, k, g) && !Reports(st, k)
    requires g < |Apply(up, w, st).guards| && !Apply(up, w, st).guards[g].released
    ensures ProbeAlone(Apply(up, w, st), k, g)
  {
    match st
    case Acquire(a, model, now) =>
      if TryAcquire(up, w.slots, a, model, now).Granted? {
        HalfOpenRefuses(up, dir, w, a, model, now, k);
        AcquireElsewhere(up, w, a, model, now, k);
        LiveAppend(w.guards, Guard(a.id, a.profileArn, model, false), k);
      }
    case Release(h, now) =>
      if h < |w.guards| && !w.guards[h].released {
        OthersDoNotMatch(w, k, g, h);
        ReleaseElsewhere(up, w.slots, w.guards[h], now, k);
        LiveRelease(w.guards, h, k);
      }
    case RateLimitedAt(_, _, _, _, _, _, _) => ReportElsewhere(up, w, st, k);
    case SucceededAt(_, _, _, _) => ReportElsewhere(up, w, st, k);
  }

  lemma {:induction false} ProbedKey(up: Config, dir: map<string, Account>, w: World, st: Step, k: Key)
    requires Sound(up, dir, w) && Enabled(dir, w, st) && Probes(up, w, st, k)
    ensures !k.AccountKey? && Matches(Guard(st.account.id, st.account.profileArn, st.model, false), k)
    ensures Live(w.guards, k) == 0 ==> ProbeAlone(Apply(up, w, st), k, |w.guards|)
  {
    LiveAppend(w.guards, Guard(st.account.id, st.account.profileArn, st.model, false), k);
  }

  lemma {:induction false} HeldBefore(up: Config, dir: map<string, Account>, ws: seq<World>, steps: seq<Step>, g: nat,
      i: nat, j: nat)
    requires IsRun(up, dir, ws, steps) && i <= j < |ws| && g < |ws[i].guards|
    requires g < |ws[j].guards| && !ws[j].guards[g].released
    ensures !ws[i].guards[g].released
  {
    if i < j {
      if ws[i].guards[g].released {
        ReleasedUntil(up, dir, ws, steps, g, i, j);
      }
    }
  }

  lemma {:induction false} GuardsGrow(up: Config, dir: map<string, Account>, ws: seq<World>, steps: seq<Step>, i: nat,
      j: nat)
    requires IsRun(up, dir, ws, steps) && i <= j < |ws|
    ensures |ws[i].guards| <= |ws[j].guards|
  {
    if i < j {
      GuardsGrow(up, dir, ws, steps, i, j - 1);
      assert ws[j - 1 + 1] == Apply(up, ws[j - 1], steps[j - 1]);
    }
  }

  lemma {:induction false} AloneUntil(
    up: Config, dir: map<string, Account>, ws: seq<World>, steps: seq<Step>, k: Key, g: nat, i: nat, j: nat)
    requires IsRun(up, dir, ws, steps) && i <= j < |ws| && !k.AccountKey? && ProbeAlone(ws[i], k, g)
    requires g < |ws[j].guards| && !ws[j].guards[g].released && forall m :: i <= m < j ==> !Reports(steps[m], k)
    ensures ProbeAlone(ws[j], k, g)
  {
    if i < j {
      GuardsGrow(up, dir, ws, steps, i, j - 1);
      HeldBefore(up, dir, ws, steps, g, j - 1, j);
      AloneUntil(up, dir, ws, steps, k, g, i, j - 1);
      AloneAfter(up, dir, ws, steps, k, g, j);
    }
  }

  lemma {:induction false} AloneAfter(up: Config, dir: map<string, Account>, ws: seq<World>, steps: seq<Step>, k: Key,
      g: nat, j: nat)
    requires IsRun(up, dir, ws, steps) && 0 < j < |ws| && !k.AccountKey? && ProbeAlone(ws[j - 1], k, g)
    requires g < |ws[j].guards| && !ws[j].guards[g].released && !Reports(steps[j - 1], k)
    ensures ProbeAlone(ws[j], k, g)
  {
    KeyInRun(up, dir, ws, steps, j - 1, k);
    ProbeStaysAlone(up, dir, ws[j - 1], steps[j - 1], k, g);
  }

  lemma {:induction false} KeyInRun(up: Config, dir: map<string, Account>, ws: seq<World>, steps: seq<Step>, i: nat,
      k: Key)
    requires IsRun(up, dir, ws, steps) && i < |ws|
    ensures KeySound(up, dir, k, At(ws[i].slots, k), Live(ws[i].guards, k), ws[i].clock)
  {
    RunSound(up, dir, ws, steps, i);
  }

  /**
   * A second probe of a key starts while the first is in flight only if another guard was live on the key
   * when the first one started, or if a rate limit or a success was reported for the key in between.
   */
  lemma {:induction false} OverlapNeedsEarlierGuard(
    up: Config, dir: map<string, Account>, ws: seq<World>, steps: seq<Step>, k: Key, i: nat, j: nat)
    requires IsRun(up, dir, ws, steps) && i < j < |steps|
    requires Probes(up, ws[i], steps[i], k) && Probes(up, ws[j], steps[j], k)
    requires |ws[i].guards| < |ws[j].guards| && !ws[j].guards[|ws[i].guards|].released
    ensures Live(ws[i].guards, k) > 0 || exists m :: i < m < j && Reports(steps[m], k)
  {
    RunSound(up, dir, ws, steps, i);
    ProbedKey(up, dir, ws[i], steps[i], k);
    if Live(ws[i].guards, k) == 0 && forall m :: i < m < j ==> !Reports(steps[m], k) {
      AloneUntil(up, dir, ws, steps, k, |ws[i].guards|, i + 1, j);
    }
  }

  // ----------------------------------------------------------- what lifts half-open

  /**
   * The step ends the half-open state of a key: the release of a guard held on it, a rate limit reported
   * for it - a profile only if it is limited - or a success reported for it.
   */
  predicate Lifts(up: Config, w: World, st: Step, k: Key) {
    match st
    case Acquire(_, _, _) => false
    case Release(h, _) => h < |w.guards| && !w.guards[h].released && Matches(w.guards[h], k)
    case RateLimitedAt(id, arn, model, _, _, _, _) =>
      k == ModelKey(id, model) || (k == ProfileKey(arn, model) && ProfileLimit(up, arn, model) > 0)
    case SucceededAt(id, arn, model, _) =>
      model != "" && (k == ModelKey(id, model) || (arn != "" && k == ProfileKey(arn, model)))
  }

  lemma {:induction false} HalfOpenCounted(up: Config, dir: map<string, Account>, w: World, k: Key)
    requires KeySound(up, dir, k, At(w.slots, k), Live(w.guards, k), w.clock) && At(w.slots, k).halfOpenProbe
    ensures !k.AccountKey? && Counted(up, k) && At(w.slots, k).rateLimitCount > 0
  {
  }

  lemma {:induction false} AcquireKeepsHalfOpen(up: Config, dir: map<string, Account>, w: World, st: Step, k: Key)
    requires KeySound(up, dir, k, At(w.slots, k), Live(w.guards, k), w.clock) && At(w.slots, k).halfOpenProbe
    requires st.Acquire?
    ensures At(Apply(up, w, st).slots, k).halfOpenProbe
  {
    HalfOpenCounted(up, dir, w, k);
    if TryAcquire(up, w.slots, st.account, st.model, st.now).Granted? {
      HalfOpenRefuses(up, dir, w, st.account, st.model, st.now, k);
      AcquireElsewhere(up, w, st.account, st.model, st.now, k);
    }
  }

  lemma {:induction false} ReleaseLifts(up: Config, dir: map<string, Account>, w: World, st: Step, k: Key)
    requires Sound(up, dir, w) && At(w.slots, k).halfOpenProbe && st.Release?
    ensures At(Apply(up, w, st).slots, k).halfOpenProbe <==> !Lifts(up, w, st, k)
  {
    assert KeySound(up, dir, k, At(w.slots, k), Live(w.guards, k), w.clock);
    HalfOpenCounted(up, dir, w, k);
    if st.guard < |w.guards| && !w.guards[st.guard].released {
      var g := w.guards[st.guard];
      var ak := AccountKey(g.accountID);
      assert KeySound(up, dir, ak, At(w.slots, ak), Live(w.guards, ak), w.clock);
      ReleaseEffect(up, w.slots, g, st.now, k);
    }
  }

  lemma {:induction false} ReportLifts(up: Config, dir: map<string, Account>, w: World, st: Step, k: Key)
    requires KeySound(up, dir, k, At(w.slots, k), Live(w.guards, k), w.clock) && At(w.slots, k).halfOpenProbe
    requires st.RateLimitedAt? || st.SucceededAt?
    ensures At(Apply(up, w, st).slots, k).halfOpenProbe <==> !Lifts(up, w, st, k)
  {
    HalfOpenCounted(up, dir, w, k);
  }

  /** A half-open key stays half-open through a step exactly if the step does not lift it. */
  lemma {:induction false} StaysHalfOpenIff(up: Config, dir: map<string, Account>, w: World, st: Step, k: Key)
    requires Sound(up, dir, w) && At(w.slots, k).halfOpenProbe
    ensures At(Apply(up, w, st).slots, k).halfOpenProbe <==> !Lifts(up, w, st, k)
  {
    assert KeySound(up, dir, k, At(w.slots, k), Live(w.guards, k), w.clock);
    match st
    case Acquire(_, _, _) => AcquireKeepsHalfOpen(up, dir, w, st, k);
    case Release(_, _) => ReleaseLifts(up, dir, w, st, k);
    case RateLimitedAt(_, _, _, _, _, _, _) => ReportLifts(up, dir, w, st, k);
    case SucceededAt(_, _, _, _) => ReportLifts(up, dir, w, st, k);
  }

  lemma {:induction false} RunStepHalfOpen(
      up: Config, dir: map<string, Account>, ws: seq<World>, steps: seq<Step>, k: Key, n: nat)
    requires IsRun(up, dir, ws, steps) && n < |steps| && At(ws[n].slots, k).halfOpenProbe
    ensures At(ws[n + 1].slots, k).halfOpenProbe <==> !Lifts(up, ws[n], steps[n], k)
  {
    RunSound(up, dir, ws, steps, n);
    StaysHalfOpenIff(up, dir, ws[n], steps[n], k);
  }

  lemma {:induction false} UnliftedStays(
      up: Config, dir: map<string, Account>, ws: seq<World>, steps: seq<Step>, k: Key, i: nat, n: nat)
    requires IsRun(up, dir, ws, steps) && i <= n < |ws| && At(ws[i].slots, k).halfOpenProbe
    requires forall m :: i <= m < n ==> !Lifts(up, ws[m], steps[m], k)
    ensures At(ws[n].slots, k).halfOpenProbe
  {
    if i < n {
      UnliftedStays(up, dir, ws, steps, k, i, n - 1);
      RunStepHalfOpen(up, dir, ws, steps, k, n - 1);
    }
  }

  /** From a half-open state on, a key is half-open throughout a stretch of a run exactly if no step in it lifts it. */
  lemma {:induction false} HalfOpenThroughoutIff(
      up: Config, dir: map<string, Account>, ws: seq<World>, steps: seq<Step>, k: Key, i: nat, j: nat)
    requires IsRun(up, dir, ws, steps) && i <= j < |ws| && At(ws[i].slots, k).halfOpenProbe
    ensures (forall n :: i <= n <= j ==> At(ws[n].slots, k).halfOpenProbe)
       <==> (forall m :: i <= m < j ==> !Lifts(up, ws[m], steps[m], k))
  {
    if forall n :: i <= n <= j ==> At(ws[n].slots, k).halfOpenProbe {
      forall m | i <= m < j ensures !Lifts(up, ws[m], steps[m], k) {
        RunStepHalfOpen(up, dir, ws, steps, k, m);
        assert At(ws[m + 1].slots, k).halfOpenProbe;
      }
    }
    if forall m :: i <= m < j ==> !Lifts(up, ws[m], steps[m], k) {
      forall n | i <= n <= j ensures At(ws[n].slots, k).halfOpenProbe {
        UnliftedStays(up, dir, ws, steps, k, i, n);
      }
    }
  }

  /**
   * A second probe of a key while the first one's guard is out needs a step in between that lifts the
   * half-open state and is not the release of that guard.
   */
  lemma {:induction false} OverlapNeedsLift(
      up: Config, dir: map<string, Account>, ws: seq<World>, steps: seq<Step>, k: Key, i: nat, j: nat)
    requires IsRun(up, dir, ws, steps) && i < j < |steps|
    requires Probes(up, ws[i], steps[i], k) && Probes(up, ws[j], steps[j], k)
    requires |ws[i].guards| < |ws[j].guards| && !ws[j].guards[|ws[i].guards|].released
    ensures exists m :: i < m < j && Lifts(up, ws[m], steps[m], k)
                        && (steps[m].Release? ==> steps[m].guard != |ws[i].guards|)
  {
    var g := |ws[i].guards|;
    assert ws[i + 1] == Apply(up, ws[i], steps[i]);
    HalfOpenThroughoutIff(up, dir, ws, steps, k, i + 1, j);
    assert !At(ws[j].slots, k).halfOpenProbe;
    var m :| i + 1 <= m < j && Lifts(up, ws[m], steps[m], k);
    if steps[m].Release? && steps[m].guard == g {
      assert ws[m + 1] == Apply(up, ws[m], steps[m]);
      ReleasedUntil(up, dir, ws, steps, g, m + 1, j);
    }
  }

  const LIMITS := Config(0, 3, map[], map[], 0, 0, true, 1000, 8000)

  const ACCOUNT := Account("a", "", 0)
  const HELD := Guard("a", "", "m", false)

  /** One account and one model, with the given runtimes and guards. */
  function Scene(inFlight: int, model: Runtime, guards: seq<Guard>, clock: int): World {
    World(Slots(map["a" := Runtime(inFlight, 0, None, 0, false)], map[("a", "m") := model], map[]), guards, clock)
  }

  lemma {:induction false} SceneStarts()
    ensures Apply(LIMITS, Initial(0), Acquire(ACCOUNT, "m", 0)) == Scene(1, Runtime(1, 0, None, 0, false), [HELD], 0)
  {
    assert |"m"| == 1;
  }

  lemma {:induction false} SceneLimited()
    ensures Apply(LIMITS, Scene(1, Runtime(1, 0, None, 0, false), [HELD], 0),
        RateLimitedAt("a", "", "m", 0, 1000, 0, 0))
         == Scene(1, Runtime(1, 1, Some(1000), 1000, false), [HELD], 0)
  {
    assert RateLimit(Runtime(1, 0, None, 0, false), LIMITS, 0, 1000, 0) == Runtime(1, 1, Some(1000), 1000, false);
  }

  lemma {:induction false} SceneProbes(inFlight: int, guards: seq<Guard>, clock: int, now: int)
    requires 0 <= inFlight < 3 && now >= clock
    ensures Apply(LIMITS, Scene(inFlight, Runtime(inFlight, 1, Some(now), 1000, false), guards, clock),
        Acquire(ACCOUNT, "m", now))
         == Scene(inFlight + 1, Runtime(inFlight + 1, 1, None, 1000, true), guards + [HELD], now)
  {
    assert |"m"| == 1;
    assert AccountLimit(LIMITS, ACCOUNT) == 10 && ModelLimit(LIMITS, "m") == 3;
  }

  lemma {:induction false} SceneReleases()
    ensures Apply(LIMITS, Scene(2, Runtime(2, 1, None, 1000, true), [HELD, HELD], 1000), Release(0, 1000))
         == Scene(1, Runtime(1, 1, Some(2000), 1000, false), [HELD.(released := true), HELD], 1000)
  {
    assert |"m"| == 1;
    assert [HELD, HELD][0 := HELD.(released := true)] == [HELD.(released := true), HELD];
  }

  const STORY: seq<Step> := [
    Acquire(ACCOUNT, "m", 0), RateLimitedAt("a", "", "m", 0, 1000, 0, 0), Acquire(ACCOUNT, "m", 1000),
    Release(0, 1000), Acquire(ACCOUNT, "m", 2000)]

  function Scenes(): seq<World> {
    [Initial(0),
     Scene(1, Runtime(1, 0, None, 0, false), [HELD], 0),
     Scene(1, Runtime(1, 1, Some(1000), 1000, false), [HELD], 0),
     Scene(2, Runtime(2, 1, None, 1000, true), [HELD, HELD], 1000),
     Scene(1, Runtime(1, 1, Some(2000), 1000, false), [HELD.(released := true), HELD], 1000),
     Scene(2, Runtime(2, 1, None, 1000, true), [HELD.(released := true), HELD, HELD], 2000)]
  }

  lemma {:induction false} SceneSteps(i: nat)
    requires i < 5
    ensures Scenes()[i + 1] == Apply(LIMITS, Scenes()[i], STORY[i])
  {
    if i == 0 {
      SceneStarts();
    } else if i == 1 {
      SceneLimited();
    } else if i == 2 {
      SceneProbes(1, [HELD], 0, 1000);
      assert [HELD] + [HELD] == [HELD, HELD];
    } else if i == 3 {
      SceneReleases();
    } else {
      SceneProbes(1, [HELD.(released := true), HELD], 1000, 2000);
      assert [HELD.(released := true), HELD] + [HELD] == [HELD.(released := true), HELD, HELD];
    }
  }

  /** It does happen: an earlier guard's release re-opens the circuit while the first probe is still out. */
  lemma {:induction false} ProbesOverlap() returns (dir: map<string, Account>, ws: seq<World>, steps: seq<Step>)
    ensures IsRun(LIMITS, dir, ws, steps) && |steps| == 5
    ensures Probes(LIMITS, ws[2], steps[2], ModelKey("a", "m")) && Probes(LIMITS, ws[4], steps[4], ModelKey("a", "m"))
    ensures |ws[2].guards| == 1 && |ws[4].guards| == 2 && !ws[4].guards[1].released
  {
    dir, ws, steps := map["a" := ACCOUNT], Scenes(), STORY;
    forall i | 0 <= i < 5 ensures ws[i + 1] == Apply(LIMITS, ws[i], steps[i]) {
      SceneSteps(i);
    }
    SceneGrants(1, [HELD], 0, 1000);
    SceneGrants(1, [HELD.(released := true), HELD], 1000, 2000);
  }

  lemma {:induction false} SceneGrants(inFlight: int, guards: seq<Guard>, clock: int, now: int)
    requires 0 <= inFlight < 3 && now >= clock
    ensures Probes(LIMITS, Scene(inFlight, Runtime(inFlight, 1, Some(now), 1000, false), guards, clock),
                   Acquire(ACCOUNT, "m", now), ModelKey("a", "m"))
  {
    SceneProbes(inFlight, guards, clock, now);
    assert |"m"| == 1;
    assert AccountLimit(LIMITS, ACCOUNT) == 10 && ModelLimit(LIMITS, "m") == 3;
  }
}
