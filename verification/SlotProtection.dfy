/** In-flight slots and the 429 circuit: closed, cooling, half-open (pool/protection.go). */
module SlotProtection {
  import opened Common

  /** Instants and durations are milliseconds. */
  datatype Runtime = Runtime(
    inFlight: int, rateLimitCount: int, cooldownUntil: Option<int>, lastCooldownMs: int, halfOpenProbe: bool)

  const IDLE := Runtime(0, 0, None, 0, false)

  datatype Account = Account(id: string, profileArn: string, maxConcurrency: int)

  datatype Config = Config(
    maxPerAccount: int, maxPerAccountModel: int,
    perModel: map<string, int>, perProfileModel: map<string, map<string, int>>,
    softMaxPerAccount: int, softMaxPerAccountModel: int, hardMode: bool,
    rateLimitCooldownMs: int, maxRateLimitCooldownMs: int)

  /** The soft limit, where it applies, only ever lowers the hard one. */
  function Soft(hard: int, soft: int, hardMode: bool): (r: int)
    ensures hardMode || soft <= 0 ==> r == hard
    ensures !hardMode && soft > 0 ==> r == Min(hard, soft)
  {
    if !hardMode && 0 < soft < hard then soft else hard
  }

  /** The account's own limit, else the pool's, else ten; the soft limit can lower it. */
  function AccountLimit(up: Config, a: Account): (r: int)
    ensures r >= 1
    ensures a.maxConcurrency > 0 ==> r <= a.maxConcurrency
    ensures up.hardMode && a.maxConcurrency > 0 ==> r == a.maxConcurrency
    ensures up.hardMode && a.maxConcurrency <= 0 ==> r == if up.maxPerAccount > 0 then up.maxPerAccount else 10
  {
    var hard := if a.maxConcurrency > 0 then a.maxConcurrency else if up.maxPerAccount > 0 then up.maxPerAccount
        else 10;
    Soft(hard, up.softMaxPerAccount, up.hardMode)
  }

  /** The model's own limit, else the pool's, else five; the soft limit can lower it. */
  function ModelLimit(up: Config, model: string): (r: int)
    ensures r >= 1
    ensures model in up.perModel && up.perModel[model] > 0 ==>
      r <= up.perModel[model] && (up.hardMode ==> r == up.perModel[model])
    ensures up.hardMode && model !in up.perModel ==> r == if up.maxPerAccountModel > 0 then up.maxPerAccountModel else 5
  {
    var hard := if model in up.perModel && up.perModel[model] > 0 then up.perModel[model]
                else if up.maxPerAccountModel > 0 then up.maxPerAccountModel else 5;
    Soft(hard, up.softMaxPerAccountModel, up.hardMode)
  }

  function ProfileLimit(up: Config, arn: string, model: string): (r: int)
    ensures r >= 0
    ensures arn == "" ==> r == 0
    ensures arn != "" && arn in up.perProfileModel && model in up.perProfileModel[arn] ==>
      r == Max(up.perProfileModel[arn][model], 0)
  {
    if arn != "" && arn in up.perProfileModel && model in up.perProfileModel[arn] && up.perProfileModel[arn][model] > 0
    then up.perProfileModel[arn][model] else 0
  }

  function BaseMs(up: Config): (r: int)
    ensures r > 0
    ensures up.rateLimitCooldownMs > 0 ==> r == up.rateLimitCooldownMs
  {
    if up.rateLimitCooldownMs <= 0 then 2000 else up.rateLimitCooldownMs
  }

  function MaxMs(up: Config): (r: int)
    ensures r > 0
    ensures up.maxRateLimitCooldownMs > 0 ==> r == up.maxRateLimitCooldownMs
  {
    if up.maxRateLimitCooldownMs <= 0 then 60000 else up.maxRateLimitCooldownMs
  }

  /** The wait reported when a key cannot be used now. */
  function StateBusy(s: Runtime, limit: int, now: int): Option<int> {
    if s.halfOpenProbe then Some(1000)
    else if s.cooldownUntil.Some? && now < s.cooldownUntil.value then Some(s.cooldownUntil.value - now)
    else if s.inFlight >= (if limit <= 0 then 1 else limit) then Some(1000)
    else None
  }

  // ----------------------------------------------------- the circuit, key by key

  /** Exponential backoff in closed form: the base doubled per repeat, capped from the second one on. */
  function BackoffMs(up: Config, count: int): int {
    if count <= 1 then BaseMs(up) else Min(BaseMs(up) * Pow2(count - 1), MaxMs(up))
  }

  function AfterRetryMs(up: Config, count: int, retryMs: int): int {
    if retryMs > BackoffMs(up, count) then Min(retryMs, DAY_MS) else BackoffMs(up, count)
  }

  function JitterMax(ms: int): int {
    if ms / 10 < 1 then 1 else ms / 10
  }

  function CooldownMs(up: Config, count: int, retryMs: int, jitter: int): int {
    var ms := AfterRetryMs(up, count, retryMs);
    if retryMs == 0 && ms < MaxMs(up) then Min(ms + jitter, MaxMs(up)) else ms
  }

  /** No cooldown is longer than this. */
  function LongestMs(up: Config): (r: int)
    ensures r > 0
  {
    Max(Max(BaseMs(up), MaxMs(up)), DAY_MS)
  }

  lemma {:induction false} CooldownBounded(up: Config, count: int, retryMs: int, jitter: int)
    requires 0 <= jitter
    ensures 0 < CooldownMs(up, count, retryMs, jitter) <= LongestMs(up)
  {
    assert BackoffMs(up, count) > 0 by {
      if count > 1 {
        PositiveProduct(BaseMs(up), Pow2(count - 1));
      }
    }
  }

  /** The first backoff is the base, and every repeat doubles it up to the maximum. */
  lemma {:induction false} BackoffDoubles(up: Config, count: int)
    requires count >= 1
    ensures BackoffMs(up, 1) == BaseMs(up)
    ensures BackoffMs(up, count + 1) == Min(2 * BackoffMs(up, count), MaxMs(up))
  {
    var p := Pow2(count - 1);
    assert BaseMs(up) * (2 * p) == 2 * (BaseMs(up) * p);
    PositiveProduct(BaseMs(up), p);
    assert count == 1 ==> p == 1;
  }

  /** Without a retry-after hint, repeated rate limits never shorten the wait below the previous backoff. */
  lemma {:induction false} BackoffGrows(up: Config, count: int)
    requires count >= 1 && BaseMs(up) <= MaxMs(up)
    ensures BackoffMs(up, count) <= BackoffMs(up, count + 1) <= MaxMs(up)
  {
    CooldownBounded(up, count, 1, 0);
    BackoffDoubles(up, count);
  }

  function RateLimit(s: Runtime, up: Config, now: int, retryMs: int, jitter: int): Runtime {
    var ms := CooldownMs(up, s.rateLimitCount + 1, retryMs, jitter);
    Runtime(s.inFlight, s.rateLimitCount + 1, Some(now + ms), ms, false)
  }

  function Activate(s: Runtime, now: int): Runtime {
    if s.rateLimitCount == 0 || s.cooldownUntil.None? || now < s.cooldownUntil.value then s
    else s.(cooldownUntil := None, halfOpenProbe := true)
  }

  function Enter(s: Runtime, now: int): Runtime {
    var a := Activate(s, now);
    a.(inFlight := a.inFlight + 1)
  }

  function CloseCircuit(s: Runtime): Runtime {
    s.(rateLimitCount := 0, cooldownUntil := None, lastCooldownMs := 0, halfOpenProbe := false)
  }

  function Reopen(s: Runtime, up: Config, now: int): Runtime {
    if !s.halfOpenProbe || s.rateLimitCount == 0 then s else
      var delay := if s.lastCooldownMs > 0 then s.lastCooldownMs else BaseMs(up);
      s.(halfOpenProbe := false, cooldownUntil := Some(now + delay))
  }

  function Leave(s: Runtime, up: Config, now: int): Runtime {
    Reopen(if s.inFlight > 0 then s.(inFlight := s.inFlight - 1) else s, up, now)
  }

  predicate Idle(s: Runtime) {
    s.inFlight == 0 && s.cooldownUntil.None? && s.rateLimitCount == 0 && !s.halfOpenProbe
  }

  // --------------------------------------------------------------- the three tables

  datatype Slots = Slots(
    accountUpstream: map<string, Runtime>,
    upstream: map<(string, string), Runtime>,
    profiles: map<(string, string), Runtime>)

  datatype Key = AccountKey(account: string) | ModelKey(account: string, model: string) | ProfileKey(arn: string,
      model: string)

  function Get<K>(m: map<K, Runtime>, k: K): Runtime {
    if k in m then m[k] else IDLE
  }

  /** The runtime a key has, present in its table or not. */
  function At(s: Slots, k: Key): Runtime {
    match k
    case AccountKey(a) => Get(s.accountUpstream, a)
    case ModelKey(a, m) => Get(s.upstream, (a, m))
    case ProfileKey(p, m) => Get(s.profiles, (p, m))
  }

  function PutUnless<K>(m: map<K, Runtime>, k: K, r: Runtime, drop: bool): map<K, Runtime> {
    if drop then m - {k} else m[k := r]
  }

  datatype Outcome = Granted(slots: Slots) | Busy(retryAfter: int)

  /** One acquisition attempt: account, then profile, then account and model must all be free. */
  function TryAcquire(up: Config, s: Slots, a: Account, model: string, now: int): Outcome {
    var acct := Get(s.accountUpstream, a.id);
    var busyAccount := StateBusy(acct, AccountLimit(up, a), now);
    if busyAccount.Some? then Busy(busyAccount.value) else
      var limit := ProfileLimit(up, a.profileArn, model);
      var prof := Get(s.profiles, (a.profileArn, model));
      var busyProfile := StateBusy(prof, limit, now);
      if limit > 0 && busyProfile.Some? then Busy(busyProfile.value) else
        var st := Get(s.upstream, (a.id, model));
        var busyModel := StateBusy(st, ModelLimit(up, model), now);
        if model != "" && busyModel.Some? then Busy(busyModel.value) else
          Granted(Slots(
            s.accountUpstream[a.id := acct.(inFlight := acct.inFlight + 1)],
            if model != "" then s.upstream[(a.id, model) := Enter(st, now)] else s.upstream,
            if limit > 0 then s.profiles[(a.profileArn, model) := Enter(prof, now)] else s.profiles))
  }

  function ReleaseSlot(up: Config, s: Slots, id: string, arn: string, model: string, now: int): Slots {
    var acct := Get(s.accountUpstream, id);
    var left := if acct.inFlight > 0 then acct.(inFlight := acct.inFlight - 1) else acct;
    var st := Leave(Get(s.upstream, (id, model)), up, now);
    var prof := Leave(Get(s.profiles, (arn, model)), up, now);
    Slots(
      PutUnless(s.accountUpstream, id, left, left.inFlight == 0),
      if model != "" then PutUnless(s.upstream, (id, model), st, Idle(st)) else s.upstream,
      if arn != "" then PutUnless(s.profiles, (arn, model), prof, Idle(prof)) else s.profiles)
  }

  function RateLimited(up: Config, s: Slots, id: string, arn: string, model: string, now: int, retryMs: int,
      jitter: int, profileJitter: int): Slots {
    Slots(
      s.accountUpstream,
      s.upstream[(id, model) := RateLimit(Get(s.upstream, (id, model)), up, now, retryMs, jitter)],
      if ProfileLimit(up, arn, model) > 0
      then s.profiles[(arn, model) := RateLimit(Get(s.profiles, (arn, model)), up, now, retryMs, profileJitter)]
      else s.profiles)
  }

  function Succeeded(s: Slots, id: string, arn: string, model: string): Slots {
    if model == "" then s else
      var st := CloseCircuit(Get(s.upstream, (id, model)));
      var prof := CloseCircuit(Get(s.profiles, (arn, model)));
      Slots(
        s.accountUpstream,
        PutUnless(s.upstream, (id, model), st, st.inFlight == 0),
        if arn != "" then PutUnless(s.profiles, (arn, model), prof, prof.inFlight == 0) else s.profiles)
  }

  // ------------------------------------------------------------------- the world

  datatype Guard = Guard(accountID: string, profileArn: string, model: string, released: bool)

  /** The tables, every guard ever issued and the time of the last step. */
  datatype World = World(slots: Slots, guards: seq<Guard>, clock: int)

  datatype Step =
    | Acquire(account: Account, model: string, now: int)
    | Release(guard: nat, now: int)
    | RateLimitedAt(id: string, arn: string, model: string, now: int, retryMs: int, jitter: int, profileJitter: int)
    | SucceededAt(id: string, arn: string, model: string, now: int)

  function Initial(clock: int): World {
    World(Slots(map[], map[], map[]), [], clock)
  }

  /** Steps follow a non-decreasing clock; an account id always denotes the same account. */
  predicate Enabled(dir: map<string, Account>, w: World, st: Step) {
    && st.now >= w.clock
    && match st
       case Acquire(a, _, _) => a.id in dir && dir[a.id] == a
       case Release(g, _) => g < |w.guards|
       case RateLimitedAt(_, _, _, _, _, j, pj) => j >= 0 && pj >= 0
       case SucceededAt(_, _, _, _) => true
  }

  function Apply(up: Config, w: World, st: Step): World {
    match st
    case Acquire(a, model, now) =>
      (match TryAcquire(up, w.slots, a, model, now)
       case Granted(s) => World(s, w.guards + [Guard(a.id, a.profileArn, model, false)], now)
       case Busy(_) => w.(clock := now))
    case Release(i, now) =>
      if i >= |w.guards| || w.guards[i].released then w.(clock := now) else
        var g := w.guards[i];
        World(ReleaseSlot(up, w.slots, g.accountID, g.profileArn, g.model, now), w.guards[i := g.(released := true)],
            now)
    case RateLimitedAt(id, arn, model, now, retryMs, j, pj) =>
      World(RateLimited(up, w.slots, id, arn, model, now, retryMs, j, pj), w.guards, now)
    case SucceededAt(id, arn, model, now) =>
      World(Succeeded(w.slots, id, arn, model), w.guards, now)
  }

  predicate Matches(g: Guard, k: Key) {
    match k
    case AccountKey(a) => g.accountID == a
    case ModelKey(a, m) => g.accountID == a && g.model == m
    case ProfileKey(p, m) => g.profileArn == p && g.model == m
  }

  /** Unreleased guards held on a key. */
  function Live(gs: seq<Guard>, k: Key): nat {
    if gs == [] then 0
    else Live(gs[..|gs| - 1], k) + if !gs[|gs| - 1].released && Matches(gs[|gs| - 1], k) then 1 else 0
  }

  predicate Counted(up: Config, k: Key) {
    match k
    case AccountKey(_) => true
    case ModelKey(_, m) => m != ""
    case ProfileKey(p, m) => ProfileLimit(up, p, m) > 0
  }

  predicate WithinLimit(up: Config, dir: map<string, Account>, k: Key, n: int) {
    match k
    case AccountKey(a) => if a in dir then n <= AccountLimit(up, dir[a]) else n == 0
    case ModelKey(_, m) => n <= ModelLimit(up, m)
    case ProfileKey(p, m) => n <= ProfileLimit(up, p, m)
  }

  /** The circuit is closed, cooling or half-open, never a mixture, and a half-open probe is outstanding. */
  predicate CircuitSound(s: Runtime) {
    && s.rateLimitCount >= 0
    && (s.rateLimitCount > 0 <==> (s.halfOpenProbe != s.cooldownUntil.Some?))
    && !(s.halfOpenProbe && s.cooldownUntil.Some?)
    && (s.halfOpenProbe ==> s.inFlight > 0)
  }

  /** Everything an invariant says about one key. */
  predicate KeySound(up: Config, dir: map<string, Account>, k: Key, s: Runtime, live: nat, clock: int) {
    && s.inFlight == (if Counted(up, k) then live else 0)
    && (Counted(up, k) ==> WithinLimit(up, dir, k, live))
    && CircuitSound(s)
    && (k.AccountKey? ==> s.rateLimitCount == 0)
    && s.lastCooldownMs <= LongestMs(up)
    && (s.cooldownUntil.Some? ==> s.cooldownUntil.value <= clock + LongestMs(up))
  }

  ghost predicate Sound(up: Config, dir: map<string, Account>, w: World) {
    && (forall k: Key :: KeySound(up, dir, k, At(w.slots, k), Live(w.guards, k), w.clock))
    && (forall i :: 0 <= i < |w.guards| ==> w.guards[i].accountID in dir)
  }

  lemma {:induction false} LiveAppend(gs: seq<Guard>, g: Guard, k: Key)
    ensures Live(gs + [g], k) == Live(gs, k) + if !g.released && Matches(g, k) then 1 else 0
  {
    assert (gs + [g])[..|gs|] == gs;
  }

  lemma {:induction false} LiveRelease(gs: seq<Guard>, i: nat, k: Key)
    requires i < |gs| && !gs[i].released
    ensures Live(gs[i := gs[i].(released := true)], k) == Live(gs, k) - if Matches(gs[i], k) then 1 else 0
  {
    var hs := gs[i := gs[i].(released := true)];
    if i == |gs| - 1 {
      assert hs[..|hs| - 1] == gs[..|gs| - 1];
    } else {
      assert hs[..|hs| - 1] == gs[..|gs| - 1][i := gs[i].(released := true)];
      LiveRelease(gs[..|gs| - 1], i, k);
    }
  }

  function LimitFor(up: Config, a: Account, k: Key): int {
    match k
    case AccountKey(_) => AccountLimit(up, a)
    case ModelKey(_, m) => ModelLimit(up, m)
    case ProfileKey(p, m) => ProfileLimit(up, p, m)
  }

  /** A granted attempt enters exactly the counted keys of the new guard, each of which was free. */
  lemma {:induction false} AcquireEffect(up: Config, s: Slots, a: Account, model: string, now: int, k: Key)
    requires TryAcquire(up, s, a, model, now).Granted?
    requires At(s, AccountKey(a.id)).rateLimitCount == 0
    ensures var s' := TryAcquire(up, s, a, model, now).slots;
      if Counted(up, k) && Matches(Guard(a.id, a.profileArn, model, false), k) then
        At(s', k) == Enter(At(s, k), now) && StateBusy(At(s, k), LimitFor(up, a, k), now).None?
      else At(s', k) == At(s, k)
  {
  }

  lemma {:induction false} EnterSound(up: Config, dir: map<string, Account>, a: Account, k: Key, r: Runtime, live: nat,
      clock: int, now: int)
    requires KeySound(up, dir, k, r, live, clock) && Counted(up, k) && now >= clock
    requires a.id in dir && dir[a.id] == a && (k.AccountKey? ==> k.account == a.id)
    requires StateBusy(r, LimitFor(up, a, k), now).None?
    ensures KeySound(up, dir, k, Enter(r, now), live + 1, now)
  {
  }

  lemma {:induction false} AcquireKey(up: Config, dir: map<string, Account>, w: World, a: Account, model: string,
      now: int, k: Key)
    requires Sound(up, dir, w) && Enabled(dir, w, Acquire(a, model, now))
    ensures var w' := Apply(up, w, Acquire(a, model, now));
      KeySound(up, dir, k, At(w'.slots, k), Live(w'.guards, k), w'.clock)
  {
    var ak := AccountKey(a.id);
    assert KeySound(up, dir, k, At(w.slots, k), Live(w.guards, k), w.clock);
    assert KeySound(up, dir, ak, At(w.slots, ak), Live(w.guards, ak), w.clock);
    if TryAcquire(up, w.slots, a, model, now).Granted? {
      var g := Guard(a.id, a.profileArn, model, false);
      LiveAppend(w.guards, g, k);
      AcquireEffect(up, w.slots, a, model, now, k);
      if Counted(up, k) && Matches(g, k) {
        EnterSound(up, dir, a, k, At(w.slots, k), Live(w.guards, k), w.clock, now);
      }
    }
  }

  /** A release leaves every key of the guard and touches no other. */
  lemma {:induction false} ReleaseEffect(up: Config, s: Slots, g: Guard, now: int, k: Key)
    requires At(s, AccountKey(g.accountID)).rateLimitCount == 0 && CircuitSound(At(s, AccountKey(g.accountID)))
    ensures var s' := ReleaseSlot(up, s, g.accountID, g.profileArn, g.model, now);
      var left := Leave(At(s, k), up, now);
      if Matches(g, k) && (k.ModelKey? ==> k.model != "") && (k.ProfileKey? ==> k.arn != "") then
        At(s', k) == left || (At(s', k) == IDLE && Idle(left))
      else At(s', k) == At(s, k)
  {
  }

  lemma {:induction false} LeaveSound(up: Config, dir: map<string, Account>, k: Key, r: Runtime, live: nat, clock: int,
      now: int)
    requires KeySound(up, dir, k, r, live, clock) && now >= clock && live > 0
    ensures KeySound(up, dir, k, Leave(r, up, now), live - 1, now)
    ensures Idle(Leave(r, up, now)) ==> KeySound(up, dir, k, IDLE, live - 1, now)
  {
  }

  lemma {:induction false} ReleaseKey(up: Config, dir: map<string, Account>, w: World, i: nat, now: int, k: Key)
    requires Sound(up, dir, w) && Enabled(dir, w, Release(i, now))
    ensures var w' := Apply(up, w, Release(i, now));
      KeySound(up, dir, k, At(w'.slots, k), Live(w'.guards, k), w'.clock)
  {
    assert KeySound(up, dir, k, At(w.slots, k), Live(w.guards, k), w.clock);
    var g := w.guards[i];
    if !g.released {
      var ak := AccountKey(g.accountID);
      assert KeySound(up, dir, ak, At(w.slots, ak), Live(w.guards, ak), w.clock);
      LiveRelease(w.guards, i, k);
      LivePositive(w.guards, i, k);
      ReleaseEffect(up, w.slots, g, now, k);
      if Matches(g, k) {
        LeaveSound(up, dir, k, At(w.slots, k), Live(w.guards, k), w.clock, now);
      }
    }
  }

  lemma {:induction false} LivePositive(gs: seq<Guard>, i: nat, k: Key)
    requires i < |gs| && !gs[i].released
    ensures Matches(gs[i], k) ==> Live(gs, k) > 0
  {
    if i < |gs| - 1 {
      LivePositive(gs[..|gs| - 1], i, k);
    }
  }

  lemma {:induction false} RateLimitedKey(up: Config, dir: map<string, Account>, w: World, st: Step, k: Key)
    requires Sound(up, dir, w) && st.RateLimitedAt? && Enabled(dir, w, st)
    ensures var w' := Apply(up, w, st);
      KeySound(up, dir, k, At(w'.slots, k), Live(w'.guards, k), w'.clock)
  {
    assert KeySound(up, dir, k, At(w.slots, k), Live(w.guards, k), w.clock);
    var n := At(w.slots, k).rateLimitCount + 1;
    CooldownBounded(up, n, st.retryMs, st.jitter);
    CooldownBounded(up, n, st.retryMs, st.profileJitter);
  }

  lemma {:induction false} SucceededKey(up: Config, dir: map<string, Account>, w: World, st: Step, k: Key)
    requires Sound(up, dir, w) && st.SucceededAt? && Enabled(dir, w, st)
    ensures var w' := Apply(up, w, st);
      KeySound(up, dir, k, At(w'.slots, k), Live(w'.guards, k), w'.clock)
  {
    assert KeySound(up, dir, k, At(w.slots, k), Live(w.guards, k), w.clock);
  }

  /** Every step of every client keeps all counters exact and within limits and every circuit sound. */
  lemma {:induction false} StepKeepsSound(up: Config, dir: map<string, Account>, w: World, st: Step)
    requires Sound(up, dir, w) && Enabled(dir, w, st)
    ensures Sound(up, dir, Apply(up, w, st))
  {
    var w' := Apply(up, w, st);
    forall k: Key ensures KeySound(up, dir, k, At(w'.slots, k), Live(w'.guards, k), w'.clock) {
      match st
      case Acquire(a, model, now) => AcquireKey(up, dir, w, a, model, now, k);
      case Release(i, now) => ReleaseKey(up, dir, w, i, now, k);
      case RateLimitedAt(_, _, _, _, _, _, _) => RateLimitedKey(up, dir, w, st, k);
      case SucceededAt(_, _, _, _) => SucceededKey(up, dir, w, st, k);
    }
  }

  lemma {:induction false} InitialSound(up: Config, dir: map<string, Account>, clock: int)
    ensures Sound(up, dir, Initial(clock))
  {
    forall k: Key
      ensures KeySound(up, dir, k, At(Initial(clock).slots, k), Live(Initial(clock).guards, k), clock)
    {
      assert Live([], k) == 0;
      assert At(Initial(clock).slots, k) == IDLE;
    }
  }

  /** A run under a fixed configuration: worlds before each step and after the last one. */
  ghost predicate IsRun(up: Config, dir: map<string, Account>, ws: seq<World>, steps: seq<Step>) {
    && |ws| == |steps| + 1
    && ws[0] == Initial(ws[0].clock)
    && forall i :: 0 <= i < |steps| ==> Enabled(dir, ws[i], steps[i]) && ws[i + 1] == Apply(up, ws[i], steps[i])
  }

  lemma {:induction false} RunSound(up: Config, dir: map<string, Account>, ws: seq<World>, steps: seq<Step>, i: nat)
    requires IsRun(up, dir, ws, steps) && i < |ws|
    ensures Sound(up, dir, ws[i])
  {
    if i == 0 {
      InitialSound(up, dir, ws[0].clock);
    } else {
      RunSound(up, dir, ws, steps, i - 1);
      StepKeepsSound(up, dir, ws[i - 1], steps[i - 1]);
    }
  }

  /**
   * Slot conservation: in every run each counted key's counter is its number of unreleased guards, within the
   * limit.
   */
  lemma {:induction false} SlotConservation(up: Config, dir: map<string, Account>, ws: seq<World>, steps: seq<Step>,
      i: nat, k: Key)
    requires IsRun(up, dir, ws, steps) && i < |ws|
    ensures Counted(up, k) ==> At(ws[i].slots, k).inFlight == Live(ws[i].guards, k)
    ensures Counted(up, k) ==> WithinLimit(up, dir, k, At(ws[i].slots, k).inFlight)
    ensures !Counted(up, k) ==> At(ws[i].slots, k).inFlight == 0
  {
    RunSound(up, dir, ws, steps, i);
    assert KeySound(up, dir, k, At(ws[i].slots, k), Live(ws[i].guards, k), ws[i].clock);
  }

  /** A busy answer and a second release change no counter and no circuit. */
  lemma {:induction false} RefusedStepsChangeNothing(up: Config, w: World, st: Step)
    requires (st.Acquire? && TryAcquire(up, w.slots, st.account, st.model, st.now).Busy?)
             || (st.Release? && st.guard < |w.guards| && w.guards[st.guard].released)
    ensures Apply(up, w, st) == w.(clock := st.now)
  {
  }

  lemma {:induction false} ReleasedStays(up: Config, w: World, st: Step, g: nat)
    requires g < |w.guards| && w.guards[g].released
    ensures g < |Apply(up, w, st).guards| && Apply(up, w, st).guards[g].released
  {
  }

  lemma {:induction false} ReleasedUntil(
    up: Config, dir: map<string, Account>, ws: seq<World>, steps: seq<Step>, g: nat, i: nat, j: nat)
    requires IsRun(up, dir, ws, steps) && i <= j < |ws| && g < |ws[i].guards| && ws[i].guards[g].released
    ensures g < |ws[j].guards| && ws[j].guards[g].released
  {
    if i < j {
      ReleasedUntil(up, dir, ws, steps, g, i, j - 1);
      ReleasedStays(up, ws[j - 1], steps[j - 1], g);
    }
  }

  /** However often and however late a guard is released again, no counter and no circuit changes. */
  lemma {:induction false} SecondReleaseIsHarmless(
    up: Config, dir: map<string, Account>, ws: seq<World>, steps: seq<Step>, g: nat, i: nat, j: nat)
    requires IsRun(up, dir, ws, steps) && i < j < |steps|
    requires steps[i].Release? && steps[j].Release? && steps[i].guard == g == steps[j].guard
    ensures ws[j + 1].slots == ws[j].slots && ws[j + 1].guards == ws[j].guards
  {
    assert ws[i + 1] == Apply(up, ws[i], steps[i]);
    ReleasedUntil(up, dir, ws, steps, g, i + 1, j);
    RefusedStepsChangeNothing(up, ws[j], steps[j]);
  }

  lemma {:induction false} LiveZeroWhenReleased(gs: seq<Guard>, k: Key)
    requires forall i :: 0 <= i < |gs| ==> gs[i].released
    ensures Live(gs, k) == 0
  {
    if gs != [] {
      LiveZeroWhenReleased(gs[..|gs| - 1], k);
    }
  }

  /**
   * No permanent wedge: whatever happened before, once every guard is released and the longest cooldown
   * has passed since the last step, acquiring any account for any model is granted.
   */
  lemma {:induction false} NoPermanentWedge(
    up: Config, dir: map<string, Account>, ws: seq<World>, steps: seq<Step>, a: Account, model: string, now: int)
    requires IsRun(up, dir, ws, steps)
    requires a.id in dir && dir[a.id] == a
    requires var w := ws[|ws| - 1];
      (forall i :: 0 <= i < |w.guards| ==> w.guards[i].released) && now >= w.clock + LongestMs(up)
    ensures TryAcquire(up, ws[|ws| - 1].slots, a, model, now).Granted?
  {
    var w := ws[|ws| - 1];
    RunSound(up, dir, ws, steps, |ws| - 1);
    forall k: Key ensures At(w.slots, k).inFlight == 0 && !At(w.slots, k).halfOpenProbe {
      assert KeySound(up, dir, k, At(w.slots, k), Live(w.guards, k), w.clock);
      LiveZeroWhenReleased(w.guards, k);
    }
    assert KeySound(up, dir, AccountKey(a.id), At(w.slots, AccountKey(a.id)), Live(w.guards, AccountKey(a.id)),
        w.clock);
    var mk, pk := ModelKey(a.id, model), ProfileKey(a.profileArn, model);
    assert KeySound(up, dir, mk, At(w.slots, mk), Live(w.guards, mk), w.clock);
    assert KeySound(up, dir, pk, At(w.slots, pk), Live(w.guards, pk), w.clock);
  }

  // ------------------------------------------------- the account counter is a sum

  ghost function LivePerModel(gs: seq<Guard>, a: string, models: set<string>): map<string, int> {
    map m | m in models :: Live(gs, ModelKey(a, m))
  }

  lemma {:induction false} LiveIsSum(gs: seq<Guard>, a: string, models: set<string>)
    requires forall i :: 0 <= i < |gs| && !gs[i].released && gs[i].accountID == a ==> gs[i].model in models
    ensures Live(gs, AccountKey(a)) == MapSum(LivePerModel(gs, a, models))
  {
    if gs == [] {
      ZeroSum(LivePerModel(gs, a, models));
    } else {
      var rest, g := gs[..|gs| - 1], gs[|gs| - 1];
      LiveIsSum(rest, a, models);
      var m := LivePerModel(rest, a, models);
      if !g.released && g.accountID == a {
        assert LivePerModel(gs, a, models) == m[g.model := m[g.model] + 1];
        MapSumUpdate(m, g.model, m[g.model] + 1);
      } else {
        assert LivePerModel(gs, a, models) == m;
      }
    }
  }

  lemma {:induction false} ZeroSum(m: map<string, int>)
    requires forall k :: k in m ==> m[k] == 0
    ensures MapSum(m) == 0
    decreases |m|
  {
    if m != map[] {
      var k :| k in m;
      MapSumRemove(m, k);
      ZeroSum(m - {k});
    }
  }

  /** The in-flight counters stored for one account, model by model. */
  ghost function StoredPerModel(s: Slots, a: string): map<string, int> {
    var models := set k | k in s.upstream && k.0 == a && k.1 != "" :: k.1;
    map m | m in models :: At(s, ModelKey(a, m)).inFlight
  }

  /** An account's counter is the sum of its per-model counters plus its guards without a model. */
  lemma {:induction false} AccountCounterIsSum(up: Config, dir: map<string, Account>, ws: seq<World>, steps: seq<Step>,
      i: nat, a: string)
    requires IsRun(up, dir, ws, steps) && i < |ws|
    ensures At(ws[i].slots, AccountKey(a)).inFlight
            == MapSum(StoredPerModel(ws[i].slots, a)) + Live(ws[i].guards, ModelKey(a, ""))
  {
    var w := ws[i];
    SlotConservation(up, dir, ws, steps, i, AccountKey(a));
    var stored := StoredPerModel(w.slots, a);
    var models := stored.Keys + {""};
    forall g | 0 <= g < |w.guards| && !w.guards[g].released && w.guards[g].accountID == a
      ensures w.guards[g].model in models
    {
      var k := ModelKey(a, w.guards[g].model);
      LivePositive(w.guards, g, k);
      SlotConservation(up, dir, ws, steps, i, k);
    }
    LiveIsSum(w.guards, a, models);
    var full := LivePerModel(w.guards, a, models);
    MapSumRemove(full, "");
    forall m | m in stored ensures stored[m] == full[m] {
      SlotConservation(up, dir, ws, steps, i, ModelKey(a, m));
    }
    assert full - {""} == stored;
  }

  // --------------------------------------------------------------- the pool itself

  method ApplyProtectionCooldown(s: Runtime, up: Config, now: int, retryMs: int, jitter: int) returns (r: Runtime)
    requires 0 <= s.rateLimitCount
    requires 0 <= jitter <= JitterMax(AfterRetryMs(up, s.rateLimitCount + 1, retryMs))
    ensures r == RateLimit(s, up, now, retryMs, jitter)
  {
    var count := s.rateLimitCount + 1;
    var base := if up.rateLimitCooldownMs <= 0 then 2000 else up.rateLimitCooldownMs;
    var maxMs := if up.maxRateLimitCooldownMs <= 0 then 60000 else up.maxRateLimitCooldownMs;
    var ms := base;
    var i := 1;
    while i < count
      invariant 1 <= i <= count
      invariant ms == base * Pow2(i - 1)
      invariant i > 1 ==> ms < maxMs
    {
      ms := ms * 2;
      DoubledPower(base, i);
      if ms >= maxMs {
        PowerGrows(base, i, count - 1);
        ms := maxMs;
        break;
      }
      i := i + 1;
    }
    assert ms == BackoffMs(up, count);
    if retryMs > ms {
      ms := if retryMs > DAY_MS then DAY_MS else retryMs;
    }
    if retryMs == 0 && ms < maxMs {
      ms := ms + jitter;
      if ms > maxMs {
        ms := maxMs;
      }
    }
    r := Runtime(s.inFlight, count, Some(now + ms), ms, false);
  }

  class UpstreamPool {
    const up: Config
    var accountUpstream: map<string, Runtime>
    var upstream: map<(string, string), Runtime>
    var profiles: map<(string, string), Runtime>

    ghost function View(): Slots
      reads this
    {
      Slots(accountUpstream, upstream, profiles)
    }

    constructor (up: Config)
      ensures this.up == up && View() == Initial(0).slots
    {
      this.up := up;
      accountUpstream, upstream, profiles := map[], map[], map[];
    }

    method TryAcquireSlot(a: Account, model: string, now: int) returns (busy: Option<int>)
      modifies this
      ensures match TryAcquire(up, old(View()), a, model, now)
        case Granted(s) => busy.None? && View() == s
        case Busy(retry) => busy == Some(retry) && View() == old(View())
    {
      var accountState := Get(accountUpstream, a.id);
      busy := StateBusy(accountState, AccountLimit(up, a), now);
      if busy.Some? {
        return;
      }
      var limit := ProfileLimit(up, a.profileArn, model);
      var profileState := IDLE;
      if limit > 0 {
        profileState := Get(profiles, (a.profileArn, model));
        busy := StateBusy(profileState, limit, now);
        if busy.Some? {
          return;
        }
      }
      var state := IDLE;
      if model != "" {
        state := Get(upstream, (a.id, model));
        busy := StateBusy(state, ModelLimit(up, model), now);
        if busy.Some? {
          return;
        }
      }
      accountUpstream := accountUpstream[a.id := accountState.(inFlight := accountState.inFlight + 1)];
      if limit > 0 {
        profiles := profiles[(a.profileArn, model) := Enter(profileState, now)];
      }
      if model != "" {
        upstream := upstream[(a.id, model) := Enter(state, now)];
      }
    }

    method ReleaseUpstreamSlot(id: string, arn: string, model: string, now: int)
      modifies this
      ensures View() == ReleaseSlot(up, old(View()), id, arn, model, now)
    {
      var accountState := Get(accountUpstream, id);
      if accountState.inFlight > 0 {
        accountState := accountState.(inFlight := accountState.inFlight - 1);
      }
      accountUpstream := PutUnless(accountUpstream, id, accountState, accountState.inFlight == 0);
      if model != "" {
        var state := Leave(Get(upstream, (id, model)), up, now);
        upstream := PutUnless(upstream, (id, model), state, Idle(state));
      }
      if arn != "" {
        var state := Leave(Get(profiles, (arn, model)), up, now);
        profiles := PutUnless(profiles, (arn, model), state, Idle(state));
      }
    }

    method RecordUpstreamRateLimited(id: string, arn: string, model: string, now: int, retryMs: int, jitter: int,
        profileJitter: int)
      returns (cooldown: int)
      requires Get(upstream, (id, model)).rateLimitCount >= 0 && Get(profiles, (arn, model)).rateLimitCount >= 0
      requires 0 <= jitter <= JitterMax(AfterRetryMs(up, Get(upstream, (id, model)).rateLimitCount + 1, retryMs))
      requires 0 <= profileJitter <= JitterMax(AfterRetryMs(up, Get(profiles, (arn, model)).rateLimitCount + 1,
          retryMs))
      modifies this
      ensures View() == RateLimited(up, old(View()), id, arn, model, now, retryMs, jitter, profileJitter)
      ensures cooldown == if ProfileLimit(up, arn, model) > 0
                          then Max(Get(upstream, (id, model)).lastCooldownMs,
                              Get(profiles, (arn, model)).lastCooldownMs)
                          else Get(upstream, (id, model)).lastCooldownMs
    {
      var state := ApplyProtectionCooldown(Get(upstream, (id, model)), up, now, retryMs, jitter);
      cooldown := state.lastCooldownMs;
      upstream := upstream[(id, model) := state];
      if ProfileLimit(up, arn, model) > 0 {
        var profileState := ApplyProtectionCooldown(Get(profiles, (arn, model)), up, now, retryMs, profileJitter);
        cooldown := Max(cooldown, profileState.lastCooldownMs);
        profiles := profiles[(arn, model) := profileState];
      }
    }

    method RecordUpstreamSuccess(id: string, arn: string, model: string)
      modifies this
      ensures View() == Succeeded(old(View()), id, arn, model)
    {
      if model != "" {
        var state := CloseCircuit(Get(upstream, (id, model)));
        upstream := PutUnless(upstream, (id, model), state, state.inFlight == 0);
        if arn != "" {
          var profileState := CloseCircuit(Get(profiles, (arn, model)));
          profiles := PutUnless(profiles, (arn, model), profileState, profileState.inFlight == 0);
        }
      }
    }

    /** Tries the accounts in selection order; the answer is the first that is not busy. */
    method AcquireForModel(order: seq<Account>, model: string, now: int) returns (picked: Option<nat>, retryAfter: int)
      modifies this
      ensures match picked
        case Some(i) =>
          && i < |order|
          && (forall j :: 0 <= j < i ==> TryAcquire(up, old(View()), order[j], model, now).Busy?)
          && TryAcquire(up, old(View()), order[i], model, now) == Granted(View())
        case None =>
          && View() == old(View())
          && (forall j :: 0 <= j < |order| ==>
                && TryAcquire(up, old(View()), order[j], model, now).Busy?
                && TryAcquire(up, old(View()), order[j], model, now).retryAfter <= retryAfter)
          && (retryAfter == 0
              || exists j :: 0 <= j < |order| && TryAcquire(up, old(View()), order[j], model, now) == Busy(retryAfter))
    {
      retryAfter := 0;
      for i := 0 to |order|
        invariant View() == old(View())
        invariant forall j :: 0 <= j < i ==>
                    && TryAcquire(up, old(View()), order[j], model, now).Busy?
                    && TryAcquire(up, old(View()), order[j], model, now).retryAfter <= retryAfter
        invariant retryAfter == 0
                  || exists j :: 0 <= j < i && TryAcquire(up, old(View()), order[j], model, now) == Busy(retryAfter)
      {
        var busy := TryAcquireSlot(order[i], model, now);
        if busy.None? {
          return Some(i), 0;
        }
        assert TryAcquire(up, old(View()), order[i], model, now) == Busy(busy.value);
        retryAfter := Max(retryAfter, busy.value);
      }
      picked := None;
    }
  }

  /** The token a client holds for one slot. */
  class UpstreamRequestGuard {
    const pool: UpstreamPool
    const accountID: string
    const profileArn: string
    const model: string
    var released: bool

    constructor (pool: UpstreamPool, a: Account, model: string)
      ensures this.pool == pool && accountID == a.id && profileArn == a.profileArn && this.model == model && !released
    {
      this.pool, accountID, profileArn, this.model, released := pool, a.id, a.profileArn, model, false;
    }

    /** Only the first release reaches the pool. */
    method Release(now: int)
      modifies this, pool
      ensures released
      ensures pool.View() == if old(released) then old(pool.View())
                             else ReleaseSlot(pool.up, old(pool.View()), accountID, profileArn, model, now)
    {
      if released {
        return;
      }
      released := true;
      pool.ReleaseUpstreamSlot(accountID, profileArn, model, now);
    }
  }
}
