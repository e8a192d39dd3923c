/** When an upstream slot is refused, and for how long (pool/protection.go). */
module CooldownRefusal {
  import opened Common
  import opened SlotProtection

  // ------------------------------------------------------------ one acquisition

  /** A key cannot be used: a probe is out on it, it is cooling down, or it is full. */
  predicate Blocks(r: Runtime, limit: int, now: int) {
    r.halfOpenProbe || (r.cooldownUntil.Some? && now < r.cooldownUntil.value) || r.inFlight >= limit
  }

  /** What a blocked key asks the client to wait: the rest of its cooldown, else a second. */
  function WaitFor(r: Runtime, now: int): int {
    if !r.halfOpenProbe && r.cooldownUntil.Some? && now < r.cooldownUntil.value then r.cooldownUntil.value - now
    else 1000
  }

  predicate AccountBlocks(up: Config, s: Slots, a: Account, now: int) {
    Blocks(At(s, AccountKey(a.id)), AccountLimit(up, a), now)
  }

  predicate ProfileBlocks(up: Config, s: Slots, a: Account, model: string, now: int) {
    var limit := ProfileLimit(up, a.profileArn, model);
    limit > 0 && Blocks(At(s, ProfileKey(a.profileArn, model)), limit, now)
  }

  predicate ModelBlocks(up: Config, s: Slots, a: Account, model: string, now: int) {
    model != "" && Blocks(At(s, ModelKey(a.id, model)), ModelLimit(up, model), now)
  }

  /** The wait of the first key that blocks: the account's, the profile's, then the account and model's. */
  function FirstWait(up: Config, s: Slots, a: Account, model: string, now: int): int {
    if AccountBlocks(up, s, a, now) then WaitFor(At(s, AccountKey(a.id)), now)
    else if ProfileBlocks(up, s, a, model, now) then WaitFor(At(s, ProfileKey(a.profileArn, model)), now)
    else WaitFor(At(s, ModelKey(a.id, model)), now)
  }

  /** A slot is granted exactly if none of the keys it needs blocks; else the first that does names the wait. */
  lemma {:induction false} GrantedIffNothingBlocks(up: Config, s: Slots, a: Account, model: string, now: int)
    ensures var o := TryAcquire(up, s, a, model, now);
      && (o.Granted? <==> !AccountBlocks(up, s, a, now) && !ProfileBlocks(up, s, a, model, now)
                          && !ModelBlocks(up, s, a, model, now))
      && (o.Busy? ==> o.retryAfter == FirstWait(up, s, a, model, now))
  {
    var acct, st, prof := Get(s.accountUpstream, a.id), Get(s.upstream, (a.id, model)),
        Get(s.profiles, (a.profileArn, model));
    BusyIffBlocks(acct, AccountLimit(up, a), now);
    BusyIffBlocks(st, ModelLimit(up, model), now);
    if ProfileLimit(up, a.profileArn, model) > 0 {
      BusyIffBlocks(prof, ProfileLimit(up, a.profileArn, model), now);
    }
  }

  lemma {:induction false} BusyIffBlocks(r: Runtime, limit: int, now: int)
    requires limit > 0
    ensures StateBusy(r, limit, now) == if Blocks(r, limit, now) then Some(WaitFor(r, now)) else None
  {
  }

  // ------------------------------------------------------------------------- runs

  /** The acquisition needs the key besides the account's own. */
  predicate Needs(up: Config, st: Step, k: Key) {
    && st.Acquire?
    && (|| (st.model != "" && k == ModelKey(st.account.id, st.model))
        || (ProfileLimit(up, st.account.profileArn, st.model) > 0 && k == ProfileKey(st.account.profileArn, st.model)))
  }

  /** A success or a rate limit is reported for the key. */
  predicate Reports(st: Step, k: Key) {
    (st.RateLimitedAt? || st.SucceededAt?) && (k == ModelKey(st.id, st.model) || k == ProfileKey(st.arn, st.model))
  }

  /** The rate limit cools the key: the account and model key always, the profile key if it has a limit. */
  predicate Cools(up: Config, st: Step, k: Key) {
    && st.RateLimitedAt?
    && (k == ModelKey(st.id, st.model)
        || (k == ProfileKey(st.arn, st.model) && ProfileLimit(up, st.arn, st.model) > 0))
  }

  predicate Cooling(r: Runtime, deadline: int) {
    !r.halfOpenProbe && r.cooldownUntil == Some(deadline) && r.rateLimitCount > 0
  }

  /** The cooldown a rate limit gives a key. */
  function Cooldown(up: Config, w: World, st: Step, k: Key): int
    requires st.RateLimitedAt?
  {
    CooldownMs(up, At(w.slots, k).rateLimitCount + 1, st.retryMs, if k.ProfileKey? then st.profileJitter else st.jitter)
  }

  lemma {:induction false} CoolingStarts(up: Config, dir: map<string, Account>, w: World, st: Step, k: Key)
    requires Sound(up, dir, w) && Enabled(dir, w, st) && Cools(up, st, k)
    ensures Cooling(At(Apply(up, w, st).slots, k), st.now + Cooldown(up, w, st, k)) && Cooldown(up, w, st, k) > 0
  {
    assert KeySound(up, dir, k, At(w.slots, k), Live(w.guards, k), w.clock);
    CooldownBounded(up, At(w.slots, k).rateLimitCount + 1, st.retryMs,
        if k.ProfileKey? then st.profileJitter else st.jitter);
  }

  /** Before its deadline only a report for the key itself changes a cooling circuit. */
  lemma {:induction false} CoolingStays(up: Config, dir: map<string, Account>, w: World, st: Step, k: Key,
      deadline: int)
    requires Sound(up, dir, w) && Enabled(dir, w, st) && Cooling(At(w.slots, k), deadline) && !k.AccountKey?
    requires st.now < deadline && !Reports(st, k)
    ensures Cooling(At(Apply(up, w, st).slots, k), deadline)
  {
    match st
    case Acquire(a, model, now) =>
      var ak := AccountKey(a.id);
      assert KeySound(up, dir, ak, At(w.slots, ak), Live(w.guards, ak), w.clock);
      if TryAcquire(up, w.slots, a, model, now).Granted? {
        AcquireEffect(up, w.slots, a, model, now, k);
      }
    case Release(i, now) =>
      var g := w.guards[i];
      var ak := AccountKey(g.accountID);
      assert KeySound(up, dir, ak, At(w.slots, ak), Live(w.guards, ak), w.clock);
      ReleaseEffect(up, w.slots, g, now, k);
    case RateLimitedAt(_, _, _, _, _, _, _) =>
    case SucceededAt(_, _, _, _) =>
  }

  lemma {:induction false} ClockGrows(up: Config, dir: map<string, Account>, ws: seq<World>, steps: seq<Step>, i: nat,
      j: nat)
    requires IsRun(up, dir, ws, steps) && i <= j < |ws|
    ensures ws[i].clock <= ws[j].clock
  {
    if i < j {
      ClockGrows(up, dir, ws, steps, i, j - 1);
    }
  }

  lemma {:induction false} StepInRun(up: Config, dir: map<string, Account>, ws: seq<World>, steps: seq<Step>, m: nat,
      k: Key, deadline: int)
    requires IsRun(up, dir, ws, steps) && m < |steps| && Cooling(At(ws[m].slots, k), deadline) && !k.AccountKey?
    requires steps[m].now < deadline && !Reports(steps[m], k)
    ensures Cooling(At(ws[m + 1].slots, k), deadline)
  {
    RunSound(up, dir, ws, steps, m);
    CoolingStays(up, dir, ws[m], steps[m], k, deadline);
  }

  lemma {:induction false} CoolingUntil(up: Config, dir: map<string, Account>, ws: seq<World>, steps: seq<Step>, i: nat,
      j: nat, k: Key, deadline: int)
    requires IsRun(up, dir, ws, steps) && i <= j < |ws| && Cooling(At(ws[i].slots, k), deadline) && !k.AccountKey?
    requires forall m :: i <= m < j ==> steps[m].now < deadline && !Reports(steps[m], k)
    ensures Cooling(At(ws[j].slots, k), deadline)
  {
    if i < j {
      CoolingUntil(up, dir, ws, steps, i, j - 1, k, deadline);
      StepInRun(up, dir, ws, steps, j - 1, k, deadline);
    }
  }

  /**
   * A rate limit refuses: in every run, an acquisition that needs the limited key is busy at every instant before the
   * deadline, unless a success or another rate limit was reported for the key in between. The wait is the rest of the
   * cooldown, or that of a key that is asked first and blocks as well.
   */
  lemma {:induction false} CoolingKeyRefuses(up: Config, dir: map<string, Account>, ws: seq<World>, steps: seq<Step>,
      i: nat, j: nat, k: Key)
    requires IsRun(up, dir, ws, steps) && i < j < |steps| && Cools(up, steps[i], k) && Needs(up, steps[j], k)
    requires steps[j].now < steps[i].now + Cooldown(up, ws[i], steps[i], k)
    requires forall m :: i < m < j ==> !Reports(steps[m], k)
    ensures var a, model, now := steps[j].account, steps[j].model, steps[j].now;
      var rest := steps[i].now + Cooldown(up, ws[i], steps[i], k) - now;
      var o := TryAcquire(up, ws[j].slots, a, model, now);
      && o.Busy? && ws[j + 1].slots == ws[j].slots
      && o.retryAfter == (if AccountBlocks(up, ws[j].slots, a, now) then 1000
                          else if k.ModelKey? && ProfileBlocks(up, ws[j].slots, a, model, now)
                          then WaitFor(At(ws[j].slots, ProfileKey(a.profileArn, model)), now) else rest)
  {
    var deadline := steps[i].now + Cooldown(up, ws[i], steps[i], k);
    RunSound(up, dir, ws, steps, i);
    CoolingStarts(up, dir, ws[i], steps[i], k);
    forall m | i < m < j ensures steps[m].now < deadline {
      ClockGrows(up, dir, ws, steps, m + 1, j);
    }
    CoolingUntil(up, dir, ws, steps, i + 1, j, k, deadline);
    RunSound(up, dir, ws, steps, j);
    RefusedWhileCooling(up, dir, ws[j], steps[j].account, steps[j].model, steps[j].now, k, deadline);
  }

  lemma {:induction false} RefusedWhileCooling(up: Config, dir: map<string, Account>, w: World, a: Account,
      model: string, now: int, k: Key, deadline: int)
    requires Sound(up, dir, w) && Needs(up, Acquire(a, model, now), k) && Cooling(At(w.slots, k), deadline)
    requires now < deadline
    ensures var o := TryAcquire(up, w.slots, a, model, now);
      && o.Busy?
      && o.retryAfter == (if AccountBlocks(up, w.slots, a, now) then 1000
                          else if k.ModelKey? && ProfileBlocks(up, w.slots, a, model, now)
                          then WaitFor(At(w.slots, ProfileKey(a.profileArn, model)), now) else deadline - now)
  {
    var ak := AccountKey(a.id);
    assert KeySound(up, dir, ak, At(w.slots, ak), Live(w.guards, ak), w.clock);
    GrantedIffNothingBlocks(up, w.slots, a, model, now);
  }

  /** A blocked key asks for at least that long. */
  predicate WaitsAtLeast(r: Runtime, now: int, rest: int) {
    if !r.halfOpenProbe && r.cooldownUntil.Some? && now < r.cooldownUntil.value then r.cooldownUntil.value >= now + rest
    else rest <= 1000
  }

  /**
   * The wait covers the rest of the cooldown exactly if no key asked earlier blocks for less: a full account asks for
   * a second, and so does a limited profile unless it is cooling itself.
   */
  lemma {:induction false} WaitCoversCooldownIff(up: Config, dir: map<string, Account>, ws: seq<World>,
      steps: seq<Step>, i: nat, j: nat, k: Key)
    requires IsRun(up, dir, ws, steps) && i < j < |steps| && Cools(up, steps[i], k) && Needs(up, steps[j], k)
    requires steps[j].now < steps[i].now + Cooldown(up, ws[i], steps[i], k)
    requires forall m :: i < m < j ==> !Reports(steps[m], k)
    ensures var a, model, now := steps[j].account, steps[j].model, steps[j].now;
      var rest := steps[i].now + Cooldown(up, ws[i], steps[i], k) - now;
      var o := TryAcquire(up, ws[j].slots, a, model, now);
      && o.Busy?
      && (o.retryAfter >= rest
          <==> if AccountBlocks(up, ws[j].slots, a, now) then rest <= 1000
               else k.ModelKey? && ProfileBlocks(up, ws[j].slots, a, model, now) ==>
                 WaitsAtLeast(At(ws[j].slots, ProfileKey(a.profileArn, model)), now, rest))
  {
    CoolingKeyRefuses(up, dir, ws, steps, i, j, k);
  }

  /** It does ask for less: a full account hides a five-second cooldown behind a wait of one second. */
  lemma {:induction false} FullAccountHidesCooldown()
      returns (up: Config, dir: map<string, Account>, ws: seq<World>, steps: seq<Step>)
    ensures IsRun(up, dir, ws, steps) && |steps| == 3 && steps[1].RateLimitedAt? && steps[2].Acquire?
    ensures Cools(up, steps[1], ModelKey("a", "m")) && Needs(up, steps[2], ModelKey("a", "m"))
    ensures Cooldown(up, ws[1], steps[1], ModelKey("a", "m")) == 5000 && steps[1].now == steps[2].now
    ensures TryAcquire(up, ws[2].slots, steps[2].account, "m", steps[2].now) == Busy(1000)
  {
    up := Config(1, 1, map[], map[], 0, 0, true, 2000, 60000);
    var a := Account("a", "", 1);
    dir := map["a" := a];
    steps := [Acquire(a, "m", 0), RateLimitedAt("a", "", "m", 0, 5000, 0, 0), Acquire(a, "m", 0)];
    var w0 := Initial(0);
    var w1 := Apply(up, w0, steps[0]);
    var w2 := Apply(up, w1, steps[1]);
    var w3 := Apply(up, w2, steps[2]);
    ws := [w0, w1, w2, w3];
    assert |"m"| == 1;
    GrantedIffNothingBlocks(up, w0.slots, a, "m", 0);
    assert At(w1.slots, AccountKey("a")).inFlight == 1;
    GrantedIffNothingBlocks(up, w2.slots, a, "m", 0);
  }

  // ----------------------------------------------------------- how long it cools

  /** The success closes the key's circuit. */
  predicate Clears(st: Step, k: Key) {
    && st.SucceededAt? && st.model != ""
    && (k == ModelKey(st.id, st.model) || (k == ProfileKey(st.arn, st.model) && st.arn != ""))
  }

  /** Rate limits reported for a key in the first n steps since it last succeeded. */
  function Strikes(up: Config, steps: seq<Step>, n: nat, k: Key): nat
    requires n <= |steps|
  {
    if n == 0 then 0
    else if Cools(up, steps[n - 1], k) then Strikes(up, steps, n - 1, k) + 1
    else if Clears(steps[n - 1], k) then 0
    else Strikes(up, steps, n - 1, k)
  }

  lemma {:induction false} StepStrikes(up: Config, dir: map<string, Account>, w: World, st: Step, k: Key)
    requires Sound(up, dir, w) && Enabled(dir, w, st) && !k.AccountKey?
    ensures At(Apply(up, w, st).slots, k).rateLimitCount
         == if Cools(up, st, k) then At(w.slots, k).rateLimitCount + 1
            else if Clears(st, k) then 0 else At(w.slots, k).rateLimitCount
  {
    match st
    case Acquire(a, model, now) =>
      var ak := AccountKey(a.id);
      assert KeySound(up, dir, ak, At(w.slots, ak), Live(w.guards, ak), w.clock);
      if TryAcquire(up, w.slots, a, model, now).Granted? {
        AcquireEffect(up, w.slots, a, model, now, k);
      }
    case Release(i, now) =>
      var g := w.guards[i];
      var ak := AccountKey(g.accountID);
      assert KeySound(up, dir, ak, At(w.slots, ak), Live(w.guards, ak), w.clock);
      ReleaseEffect(up, w.slots, g, now, k);
    case RateLimitedAt(_, _, _, _, _, _, _) =>
    case SucceededAt(_, _, _, _) =>
  }

  /** In every run a key's count is the number of rate limits since its last success, so the backoff doubles with it. */
  lemma {:induction false} CountsStrikes(up: Config, dir: map<string, Account>, ws: seq<World>, steps: seq<Step>,
      n: nat,
      k: Key)
    requires IsRun(up, dir, ws, steps) && n < |ws| && !k.AccountKey?
    ensures At(ws[n].slots, k).rateLimitCount == Strikes(up, steps, n, k)
  {
    if n > 0 {
      CountsStrikes(up, dir, ws, steps, n - 1, k);
      RunSound(up, dir, ws, steps, n - 1);
      StepStrikes(up, dir, ws[n - 1], steps[n - 1], k);
    }
  }

  /**
   * A retry hint above the backoff is honoured up to a day, one below it changes nothing, and without a hint the
   * jitter only lengthens the backoff, up to the configured maximum.
   */
  lemma {:induction false} CooldownHonoursHint(up: Config, count: int, retryMs: int, jitter: int)
    requires jitter >= 0 && retryMs >= 0
    ensures var backoff := BackoffMs(up, count); var ms := CooldownMs(up, count, retryMs, jitter);
      && (retryMs > backoff ==> ms == Min(retryMs, DAY_MS))
      && (0 < retryMs <= backoff ==> ms == backoff)
      && (retryMs == 0 ==> backoff <= ms <= Max(backoff, MaxMs(up)) && ms <= backoff + jitter)
      && (retryMs == 0 && backoff + jitter <= MaxMs(up) ==> ms == backoff + jitter)
  {
    CooldownBounded(up, count, retryMs, jitter);
    CooldownBounded(up, count, 1, jitter);
  }

  // --------------------------------------------------------- after the deadline

  /** The first acquisition after a cooldown, and no other, turns the key half-open. */
  lemma {:induction false} ProbeSentIff(up: Config, dir: map<string, Account>, w: World, st: Step, k: Key)
    requires Sound(up, dir, w) && Enabled(dir, w, st) && st.Acquire? && !At(w.slots, k).halfOpenProbe
    requires TryAcquire(up, w.slots, st.account, st.model, st.now).Granted?
    ensures At(Apply(up, w, st).slots, k).halfOpenProbe <==> Needs(up, st, k) && At(w.slots, k).cooldownUntil.Some?
  {
    var ak := AccountKey(st.account.id);
    assert KeySound(up, dir, ak, At(w.slots, ak), Live(w.guards, ak), w.clock);
    assert KeySound(up, dir, k, At(w.slots, k), Live(w.guards, k), w.clock);
    AcquireEffect(up, w.slots, st.account, st.model, st.now, k);
    GrantedIffNothingBlocks(up, w.slots, st.account, st.model, st.now);
  }

  /** The release of a guard held on a half-open key starts the last cooldown again. */
  lemma {:induction false} AbandonedProbeCoolsAgain(up: Config, dir: map<string, Account>, w: World, st: Step, k: Key)
    requires Sound(up, dir, w) && Enabled(dir, w, st) && st.Release? && At(w.slots, k).halfOpenProbe
    requires !w.guards[st.guard].released && Matches(w.guards[st.guard], k)
    ensures var last := At(w.slots, k).lastCooldownMs;
      Cooling(At(Apply(up, w, st).slots, k), st.now + if last > 0 then last else BaseMs(up))
  {
    var g := w.guards[st.guard];
    var ak := AccountKey(g.accountID);
    assert KeySound(up, dir, ak, At(w.slots, ak), Live(w.guards, ak), w.clock);
    assert KeySound(up, dir, k, At(w.slots, k), Live(w.guards, k), w.clock);
    ReleaseEffect(up, w.slots, g, st.now, k);
  }
}
