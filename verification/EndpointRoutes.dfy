/** The per-account endpoint route registry (proxy/account_endpoint_routes.go). */
module EndpointRoutes {
  import opened Common

  /** Instants and durations are milliseconds; instant zero is Go's unset time. Keys are trimmed and lower-case. */
  datatype Endpoint = Endpoint(key: string, name: string)

  datatype RouteKey = RouteKey(account: string, model: string, endpoint: string)
  datatype PreferenceKey = PreferenceKey(account: string, model: string)

  datatype Route = Route(
    name: string, kind: Kind, failures: nat, cooldownUntil: int, lastCooldown: int, lastFailureAt: int, lastAccess: int)
  datatype Preference = Preference(endpoint: string, expiresAt: int, lastAccess: int)

  /**
   * Timeouts, truncations, empty replies and transient errors are all Interrupted; Unrelated ones do not cool a
   * route.
   */
  datatype Kind = Quota | RateLimited | ModelUnavailable | EndpointUnavailable | Forbidden | Interrupted | Unrelated

  datatype Failure = Failure(kind: Kind, status: int, retryAfter: int)

  datatype Settings = Settings(cooldownMs: int, maxCooldownMs: int, affinityMs: int, maxEntries: int)

  datatype State = State(routes: map<RouteKey, Route>, preferences: map<PreferenceKey, Preference>)

  const EMPTY := State(map[], map[])

  /** A setting that is given, or its default. */
  function Setting(given: int, default: int): (r: int)
    requires default > 0
    ensures given > 0 ==> r == given
    ensures given <= 0 ==> r == default
  {
    if given <= 0 then default else given
  }

  function Base(c: Settings): int { Setting(c.cooldownMs, 2_000) }
  function Maximum(c: Settings): int { Setting(c.maxCooldownMs, 60_000) }
  function Affinity(c: Settings): int { Setting(c.affinityMs, 3_600_000) }
  function Limit(c: Settings): nat { Setting(c.maxEntries, 20_000) }

  // ------------------------------------------------------------------- cooldowns

  /** Exponential backoff in closed form. */
  function Backoff(base: int, maximum: int, failures: nat): int
    requires failures >= 1
  {
    if base >= maximum then base else Min(base * Pow2(failures - 1), maximum)
  }

  predicate Settled(f: Failure) {
    f.kind.Forbidden? || f.kind.ModelUnavailable? || (f.kind.EndpointUnavailable? && f.status != 0)
  }

  function Cooldown(c: Settings, failures: nat, f: Failure): int
    requires failures >= 1
  {
    var chosen := if Settled(f) then Affinity(c)
                  else if f.kind.Quota? then Maximum(c)
                  else Backoff(Base(c), Maximum(c), failures);
    if f.retryAfter > chosen then Min(f.retryAfter, DAY_MS) else chosen
  }

  /** A failure always cools the route; a repeated one never for less time. */
  lemma {:induction false} CooldownGrows(c: Settings, n: nat, m: nat, f: Failure)
    requires 1 <= n <= m
    ensures 0 < Cooldown(c, n, f) <= Cooldown(c, m, f)
    ensures f.retryAfter <= 0 ==> Cooldown(c, m, f) <= Max(Affinity(c), Max(Base(c), Maximum(c)))
  {
    PowerGrows(Base(c), n - 1, m - 1);
    PowerGrows(Base(c), 0, n - 1);
  }

  method BackoffLoop(base: int, maximum: int, failures: nat) returns (cooldown: int)
    requires failures >= 1 && base > 0
    ensures cooldown == Backoff(base, maximum, failures)
  {
    cooldown := base;
    var i := 1;
    while i < failures && cooldown < maximum
      invariant 1 <= i <= failures
      invariant cooldown == Backoff(base, maximum, i)
      invariant base < maximum ==> cooldown == base * Pow2(i - 1) < maximum
    {
      DoubledPower(base, i);
      cooldown := cooldown * 2;
      i := i + 1;
      if cooldown >= maximum {
        cooldown := maximum;
        PowerGrows(base, i - 1, failures - 1);
        break;
      }
    }
  }

  // -------------------------------------------------------------------- ordering

  /** The first index past the head that holds the key. */
  function LaterIndex(es: seq<Endpoint>, key: string, i: nat): (r: Option<nat>)
    requires 1 <= i
    ensures r.Some? ==> i <= r.value < |es| && es[r.value].key == key && forall j :: i <= j < r.value ==>
        es[j].key != key
    ensures r.None? ==> forall j :: i <= j < |es| ==> es[j].key != key
    decreases |es| - i
  {
    if i >= |es| then None else if es[i].key == key then Some(i) else LaterIndex(es, key, i + 1)
  }

  function MoveFirst(es: seq<Endpoint>, key: string): seq<Endpoint> {
    var at := LaterIndex(es, key, 1);
    if at.None? then es else [es[at.value]] + es[..at.value] + es[at.value + 1..]
  }

  /** An offered key comes first afterwards and nothing is lost, added or otherwise reordered. */
  lemma {:induction false} MovedFirst(es: seq<Endpoint>, key: string)
    ensures multiset(MoveFirst(es, key)) == multiset(es)
    ensures (exists e :: e in es && e.key == key) ==> MoveFirst(es, key)[0].key == key
    ensures (forall e :: e in es ==> e.key != key) ==> MoveFirst(es, key) == es
  {
    var at := LaterIndex(es, key, 1);
    if at.Some? {
      assert es == es[..at.value] + [es[at.value]] + es[at.value + 1..];
    }
  }

  /** The rotation in place. */
  method MoveEndpointFirst(a: array<Endpoint>, key: string)
    modifies a
    ensures a[..] == MoveFirst(old(a[..]), key)
  {
    var at := LaterIndex(a[..], key, 1);
    if at.Some? {
      var preferred := a[at.value];
      var j := at.value;
      while j > 0
        invariant 0 <= j <= at.value
        invariant a[..j + 1] == old(a[..])[..j + 1]
        invariant forall k :: j < k <= at.value ==> a[k] == old(a[..])[k - 1]
        invariant forall k :: at.value < k < a.Length ==> a[k] == old(a[..])[k]
      {
        assert a[j - 1] == old(a[..])[..j + 1][j - 1];
        assert a[..j] == old(a[..])[..j];
        a[j] := a[j - 1];
        j := j - 1;
      }
      a[0] := preferred;
      var moved := MoveFirst(old(a[..]), key);
      assert forall k :: 0 <= k < a.Length ==> a[k] == moved[k];
    }
  }

  // ------------------------------------------------------------------- selection

  function RouteOf(account: string, model: string, e: Endpoint): RouteKey {
    RouteKey(account, model, e.key)
  }

  predicate Cooling(routes: map<RouteKey, Route>, k: RouteKey, now: int) {
    k in routes && routes[k].cooldownUntil > now
  }

  /** The endpoints that are not cooling, in order. */
  function Usable(routes: map<RouteKey, Route>, account: string, model: string, es: seq<Endpoint>,
      now: int): seq<Endpoint> {
    if es == [] then [] else
      var rest := Usable(routes, account, model, es[..|es| - 1], now);
      var e := es[|es| - 1];
      if Cooling(routes, RouteOf(account, model, e), now) then rest else rest + [e]
  }

  predicate Live(p: map<PreferenceKey, Preference>, k: PreferenceKey, now: int) {
    k in p && p[k].expiresAt > now
  }

  function Pruned(s: State, now: int, c: Settings): State {
    State(
      map k | k in s.routes && (s.routes[k].cooldownUntil > now || now - s.routes[k].lastAccess < Affinity(c)) ::
          s.routes[k],
      map k | k in s.preferences && s.preferences[k].expiresAt > now :: s.preferences[k])
  }

  function Candidates(s: State, account: string, model: string, auto: bool, es: seq<Endpoint>,
      now: int): seq<Endpoint> {
    var k := PreferenceKey(account, model);
    if auto && Live(s.preferences, k, now) then MoveFirst(es, s.preferences[k].endpoint) else es
  }

  /** The consulted cooling routes count as used now. */
  function Touched(routes: map<RouteKey, Route>, account: string, model: string, es: seq<Endpoint>,
      now: int): map<RouteKey, Route> {
    if es == [] then routes else
      var t := Touched(routes, account, model, es[..|es| - 1], now);
      var k := RouteOf(account, model, es[|es| - 1]);
      if Cooling(t, k, now) then t[k := t[k].(lastAccess := now)] else t
  }

  /** Touching changes when the consulted cooling routes were last used, and nothing else. */
  lemma {:induction false} TouchedExactly(
    routes: map<RouteKey, Route>, account: string, model: string, es: seq<Endpoint>, now: int, r: RouteKey)
    ensures r in Touched(routes, account, model, es, now) <==> r in routes
    ensures r in routes ==> Touched(routes, account, model, es, now)[r] == routes[r].(lastAccess :=
      if Cooling(routes, r, now) && (exists e :: e in es && RouteOf(account, model, e) == r) then now
          else routes[r].lastAccess)
    ensures Cooling(Touched(routes, account, model, es, now), r, now) <==> Cooling(routes, r, now)
  {
    if es != [] {
      var last := es[|es| - 1];
      assert es == es[..|es| - 1] + [last];
      TouchedExactly(routes, account, model, es[..|es| - 1], now, r);
      if RouteOf(account, model, last) == r {
        assert last in es;
      }
    }
  }

  /** The shortest remaining cooldown met so far, zero for none. */
  function Wait(routes: map<RouteKey, Route>, account: string, model: string, es: seq<Endpoint>, now: int): int {
    if es == [] then 0 else
      var w := Wait(routes, account, model, es[..|es| - 1], now);
      var k := RouteOf(account, model, es[|es| - 1]);
      if !Cooling(routes, k, now) then w
      else if w == 0 || routes[k].cooldownUntil - now < w then routes[k].cooldownUntil - now
      else w
  }

  /** Marks a consulted preference and consulted cooling routes as recently used. */
  function Consulted(s: State, account: string, model: string, auto: bool, es: seq<Endpoint>, now: int): State {
    var k := PreferenceKey(account, model);
    State(
      Touched(s.routes, account, model, es, now),
      if auto && Live(s.preferences, k, now) then s.preferences[k := s.preferences[k].(lastAccess := now)]
          else s.preferences)
  }

  datatype Offer = Offered(endpoints: seq<Endpoint>) | AllCooling(retryAfter: int)

  /**
   * What an offer must be: passed through, the usable candidates, every cooling one on request, or the shortest
   * wait.
   */
  ghost predicate IsOffer(
    s: State, account: string, model: string, auto: bool, es: seq<Endpoint>, allowCooling: bool, now: int, offer: Offer)
  {
    var ordered := Candidates(s, account, model, auto, es, now);
    var usable := Usable(s.routes, account, model, ordered, now);
    if account == "" || model == "" || es == [] then offer == Offered(es)
    else if usable != [] then offer == Offered(usable)
    else if allowCooling then offer == Offered(ordered)
    else
      && offer.AllCooling?
      && IsShortestWait(s.routes, account, model, es, now, offer.retryAfter)
  }

  ghost predicate IsShortestWait(
    routes: map<RouteKey, Route>, account: string, model: string, es: seq<Endpoint>, now: int, wait: int)
  {
    && (forall e :: e in es ==> RouteOf(account, model, e) in routes
                                && wait <= routes[RouteOf(account, model, e)].cooldownUntil - now)
    && (exists e :: e in es && wait == routes[RouteOf(account, model, e)].cooldownUntil - now)
    && wait > 0
  }

  lemma {:induction false} UsableIff(
    routes: map<RouteKey, Route>, account: string, model: string, es: seq<Endpoint>, now: int, e: Endpoint)
    ensures e in Usable(routes, account, model, es, now) <==>
        e in es && !Cooling(routes, RouteOf(account, model, e), now)
  {
    if es != [] {
      assert es == es[..|es| - 1] + [es[|es| - 1]];
      UsableIff(routes, account, model, es[..|es| - 1], now, e);
    }
  }

  lemma {:induction false} UsableConcat(
    routes: map<RouteKey, Route>, account: string, model: string, xs: seq<Endpoint>, ys: seq<Endpoint>, now: int)
    ensures Usable(routes, account, model, xs + ys, now)
         == Usable(routes, account, model, xs, now) + Usable(routes, account, model, ys, now)
  {
    if ys == [] {
      assert xs + ys == xs;
    } else {
      assert (xs + ys)[..|xs + ys| - 1] == xs + ys[..|ys| - 1];
      UsableConcat(routes, account, model, xs, ys[..|ys| - 1], now);
    }
  }

  // ------------------------------------------------------------------ transitions

  function Failed(s: State, account: string, model: string, e: Endpoint, f: Failure, now: int, c: Settings): State {
    var k := RouteOf(account, model, e);
    var p := PreferenceKey(account, model);
    var failures := (if k in s.routes then s.routes[k].failures else 0) + 1;
    var cooldown := Cooldown(c, failures, f);
    State(
      s.routes[k := Route(e.name, f.kind, failures, now + cooldown, cooldown, now, now)],
      if p in s.preferences && s.preferences[p].endpoint == e.key then s.preferences - {p} else s.preferences)
  }

  function Succeeded(s: State, account: string, model: string, e: Endpoint, now: int, c: Settings): State {
    State(
      s.routes - {RouteOf(account, model, e)},
      s.preferences[PreferenceKey(account, model) := Preference(e.key, now + Affinity(c), now)])
  }

  function RouteAges(m: map<RouteKey, Route>): map<RouteKey, int> {
    map k | k in m :: m[k].lastAccess
  }

  function PreferenceAges(m: map<PreferenceKey, Preference>): map<PreferenceKey, int> {
    map k | k in m :: m[k].lastAccess
  }

  predicate Within(s: State, t: State) {
    && s.routes.Keys <= t.routes.Keys && (forall k :: k in s.routes ==> s.routes[k] == t.routes[k])
    && s.preferences.Keys <= t.preferences.Keys && (forall k :: k in s.preferences ==>
        s.preferences[k] == t.preferences[k])
  }

  ghost predicate Enforced(s: State, t: State, limit: nat) {
    && Within(t, s)
    && Evicts(RouteAges(s.routes), RouteAges(t.routes), limit)
    && Evicts(PreferenceAges(s.preferences), PreferenceAges(t.preferences), limit)
  }

  function Forgotten(s: State, account: string): State {
    State(map k | k in s.routes && k.account != account :: s.routes[k],
          map k | k in s.preferences && k.account != account :: s.preferences[k])
  }

  datatype Op =
    | Select(account: string, model: string, auto: bool, endpoints: seq<Endpoint>)
    | Fail(account: string, model: string, endpoint: Endpoint, failure: Failure)
    | Success(account: string, model: string, endpoint: Endpoint)
    | Clear(account: string, model: string, endpoint: Endpoint)
    | Prune
    | Forget(account: string)
    | Reset

  datatype Event = Event(op: Op, now: int, settings: Settings)

  ghost predicate Next(s: State, ev: Event, t: State) {
    var now, c := ev.now, ev.settings;
    match ev.op
    case Select(a, m, auto, es) =>
      if a == "" || m == "" || es == [] then t == s else
        var p := Pruned(s, now, c);
        t == Consulted(p, a, m, auto, Candidates(p, a, m, auto, es, now), now)
    case Fail(a, m, e, f) =>
      if a == "" || m == "" || f.kind.Unrelated? then t == s else Enforced(Failed(s, a, m, e, f, now, c), t, Limit(c))
    case Success(a, m, e) =>
      if a == "" || m == "" then t == s else Enforced(Pruned(Succeeded(s, a, m, e, now, c), now, c), t, Limit(c))
    case Clear(a, m, e) =>
      t == if a == "" || m == "" then s else s.(routes := s.routes - {RouteOf(a, m, e)})
    case Prune => t == Pruned(s, now, c)
    case Forget(a) => t == if a == "" then s else Forgotten(s, a)
    case Reset => t == EMPTY
  }

  /** No remembered endpoint has a failure entry, and nothing was used at an unset instant. */
  ghost predicate Sound(s: State) {
    && (forall p :: p in s.preferences ==> RouteKey(p.account, p.model, s.preferences[p].endpoint) !in s.routes)
    && (forall p :: p in s.preferences ==> s.preferences[p].lastAccess > 0)
    && (forall k :: k in s.routes ==> s.routes[k].lastAccess > 0)
  }

  lemma {:induction false} WithinSound(s: State, t: State)
    requires Sound(s) && Within(t, s)
    ensures Sound(t)
  {
  }

  lemma {:induction false} PrunedWithin(s: State, now: int, c: Settings)
    ensures Within(Pruned(s, now, c), s)
  {
  }

  lemma {:induction false} FailedSound(s: State, a: string, m: string, e: Endpoint, f: Failure, now: int, c: Settings)
    requires Sound(s) && now > 0
    ensures Sound(Failed(s, a, m, e, f, now, c))
  {
    var t := Failed(s, a, m, e, f, now, c);
    forall p | p in t.preferences
      ensures RouteKey(p.account, p.model, t.preferences[p].endpoint) !in t.routes
    {
      assert p in s.preferences;
    }
  }

  lemma {:induction false} ConsultedSound(s: State, a: string, m: string, auto: bool, es: seq<Endpoint>, now: int)
    requires Sound(s) && now > 0
    ensures Sound(Consulted(s, a, m, auto, es, now))
  {
    var t := Consulted(s, a, m, auto, es, now);
    forall r ensures r in t.routes <==> r in s.routes {
      TouchedExactly(s.routes, a, m, es, now, r);
    }
    forall r | r in t.routes ensures t.routes[r].lastAccess > 0 {
      TouchedExactly(s.routes, a, m, es, now, r);
    }
    forall p | p in t.preferences
      ensures RouteKey(p.account, p.model, t.preferences[p].endpoint) !in t.routes && t.preferences[p].lastAccess > 0
    {
      assert t.preferences[p].endpoint == s.preferences[p].endpoint;
    }
  }

  lemma {:induction false} SucceededSound(s: State, a: string, m: string, e: Endpoint, now: int, c: Settings)
    requires Sound(s) && now > 0
    ensures Sound(Succeeded(s, a, m, e, now, c))
  {
  }

  lemma {:induction false} NextSound(s: State, ev: Event, t: State)
    requires Sound(s) && Next(s, ev, t) && ev.now > 0
    ensures Sound(t)
  {
    var now, c := ev.now, ev.settings;
    match ev.op
    case Select(a, m, auto, es) =>
      PrunedWithin(s, now, c);
      WithinSound(s, Pruned(s, now, c));
      ConsultedSound(Pruned(s, now, c), a, m, auto, Candidates(Pruned(s, now, c), a, m, auto, es, now), now);
    case Fail(a, m, e, f) =>
      FailedSound(s, a, m, e, f, now, c);
      WithinSound(if a == "" || m == "" || f.kind.Unrelated? then s else Failed(s, a, m, e, f, now, c), t);
    case Success(a, m, e) =>
      var u := Succeeded(s, a, m, e, now, c);
      SucceededSound(s, a, m, e, now, c);
      PrunedWithin(u, now, c);
      WithinSound(u, Pruned(u, now, c));
      WithinSound(if a == "" || m == "" then s else Pruned(u, now, c), t);
    case Clear(a, m, e) =>
    case Prune =>
      PrunedWithin(s, now, c);
      WithinSound(s, t);
    case Forget(a) =>
    case Reset =>
  }

  ghost predicate IsRun(ss: seq<State>, evs: seq<Event>) {
    && |ss| == |evs| + 1 && ss[0] == EMPTY
    && forall i :: 0 <= i < |evs| ==> evs[i].now > 0 && Next(ss[i], evs[i], ss[i + 1])
  }

  /** After any run, a remembered endpoint has no failure entry. */
  lemma {:induction false} RememberedNeverCooling(ss: seq<State>, evs: seq<Event>, i: nat)
    requires IsRun(ss, evs) && i < |ss|
    ensures Sound(ss[i])
  {
    if i > 0 {
      RememberedNeverCooling(ss, evs, i - 1);
      NextSound(ss[i - 1], evs[i - 1], ss[i]);
    }
  }

  /**
   * After any run, in automatic mode a live preference that is offered comes back first, and the rest of
   * the answer is the usable candidates other than it, in the order in which they were offered.
   */
  lemma {:induction false} PreferenceComesFirst(
    ss: seq<State>, evs: seq<Event>, i: nat, account: string, model: string, es: seq<Endpoint>, allow: bool, now: int,
        offer: Offer)
    requires IsRun(ss, evs) && i < |ss| && account != "" && model != ""
    requires Live(ss[i].preferences, PreferenceKey(account, model), now)
    requires exists e :: e in es && e.key == ss[i].preferences[PreferenceKey(account, model)].endpoint
    requires IsOffer(ss[i], account, model, true, es, allow, now, offer)
    ensures offer.Offered? && offer.endpoints != []
    ensures offer.endpoints[0].key == ss[i].preferences[PreferenceKey(account, model)].endpoint
    ensures exists j :: 0 <= j < |es| && es[j] == offer.endpoints[0]
                        && offer.endpoints[1..] == Usable(ss[i].routes, account, model, es[..j] + es[j + 1..], now)
  {
    RememberedNeverCooling(ss, evs, i);
    OfferedFirst(ss[i], account, model, es, allow, now, offer);
  }

  lemma {:induction false} OfferedFirst(
    s: State, account: string, model: string, es: seq<Endpoint>, allow: bool, now: int, offer: Offer)
    requires Sound(s) && account != "" && model != "" && Live(s.preferences, PreferenceKey(account, model), now)
    requires exists e :: e in es && e.key == s.preferences[PreferenceKey(account, model)].endpoint
    requires IsOffer(s, account, model, true, es, allow, now, offer)
    ensures offer.Offered? && offer.endpoints != []
    ensures offer.endpoints[0].key == s.preferences[PreferenceKey(account, model)].endpoint
    ensures exists j :: 0 <= j < |es| && es[j] == offer.endpoints[0]
                        && offer.endpoints[1..] == Usable(s.routes, account, model, es[..j] + es[j + 1..], now)
  {
    var key := s.preferences[PreferenceKey(account, model)].endpoint;
    assert RouteKey(account, model, key) !in s.routes;
    var j := UsableHead(s.routes, account, model, es, key, now);
    var usable := Usable(s.routes, account, model, MoveFirst(es, key), now);
    assert offer == Offered(usable);
    assert usable[1..] == Usable(s.routes, account, model, es[..j] + es[j + 1..], now);
  }

  /** A moved endpoint that is not cooling heads the usable ones. */
  lemma {:induction false} UsableHead(
    routes: map<RouteKey, Route>, account: string, model: string, es: seq<Endpoint>, key: string, now: int)
        returns (j: nat)
    requires RouteKey(account, model, key) !in routes && exists e :: e in es && e.key == key
    ensures j < |es| && es[j].key == key
    ensures Usable(routes, account, model, MoveFirst(es, key), now)
         == [es[j]] + Usable(routes, account, model, es[..j] + es[j + 1..], now)
  {
    MovedFirst(es, key);
    var at := LaterIndex(es, key, 1);
    j := if at.Some? then at.value else 0;
    var rest := es[..j] + es[j + 1..];
    assert MoveFirst(es, key) == [es[j]] + rest;
    UsableConcat(routes, account, model, [es[j]], rest, now);
    assert [es[j]][..0] == [];
    assert Usable(routes, account, model, [es[j]], now) == [es[j]];
  }

  /**
   * A wait is demanded exactly when every endpoint is cooling and cooling ones are not asked for; it is the
   * shortest.
   */
  lemma {:induction false} WaitsOnlyWhenAllCooling(
    s: State, account: string, model: string, auto: bool, es: seq<Endpoint>, allow: bool, now: int, offer: Offer)
    requires IsOffer(s, account, model, auto, es, allow, now, offer)
    ensures offer.AllCooling? <==> && account != "" && model != "" && es != [] && !allow
                                   && forall e :: e in es ==> Cooling(s.routes, RouteOf(account, model, e), now)
    ensures offer.AllCooling? ==> IsShortestWait(s.routes, account, model, es, now, offer.retryAfter)
    ensures offer.Offered? && !allow && account != "" && model != "" ==>
              forall e :: e in offer.endpoints <==> e in es && !Cooling(s.routes, RouteOf(account, model, e), now)
  {
    var ordered := Candidates(s, account, model, auto, es, now);
    var usable := Usable(s.routes, account, model, ordered, now);
    SameEndpoints(s, account, model, auto, es, now);
    forall e ensures e in usable <==> e in es && !Cooling(s.routes, RouteOf(account, model, e), now) {
      UsableIff(s.routes, account, model, ordered, now, e);
    }
    if usable != [] {
      assert usable[0] in usable;
    }
  }

  lemma {:induction false} SameEndpoints(s: State, account: string, model: string, auto: bool, es: seq<Endpoint>,
      now: int)
    ensures forall e :: e in Candidates(s, account, model, auto, es, now) <==> e in es
  {
    var k := PreferenceKey(account, model);
    if auto && Live(s.preferences, k, now) {
      var key := s.preferences[k].endpoint;
      MovedFirst(es, key);
      assert forall e :: e in MoveFirst(es, key) <==> e in multiset(MoveFirst(es, key));
      assert forall e :: e in es <==> e in multiset(es);
    }
  }

  /** Pruning drops only what no answer depends on. */
  lemma {:induction false} PruningIsInvisible(
    s: State, c: Settings, account: string, model: string, auto: bool, es: seq<Endpoint>, allow: bool, now: int,
        offer: Offer)
    ensures IsOffer(Pruned(s, now, c), account, model, auto, es, allow, now, offer)
        <==> IsOffer(s, account, model, auto, es, allow, now, offer)
  {
    var p := Pruned(s, now, c);
    var ordered := Candidates(s, account, model, auto, es, now);
    assert Candidates(p, account, model, auto, es, now) == ordered;
    SameUsable(s, now, c, account, model, ordered);
    if Usable(s.routes, account, model, ordered, now) == [] {
      SameEndpoints(s, account, model, auto, es, now);
      forall e | e in es
        ensures Cooling(s.routes, RouteOf(account, model, e), now)
      {
        UsableIff(s.routes, account, model, ordered, now, e);
      }
      if offer.AllCooling? {
        SameWait(s, p, account, model, es, now, offer.retryAfter);
      }
    }
  }

  lemma {:induction false} SameWait(s: State, p: State, account: string, model: string, es: seq<Endpoint>, now: int,
      wait: int)
    requires forall e :: e in es ==> RouteOf(account, model, e) in p.routes && RouteOf(account, model, e) in s.routes
                                     && p.routes[RouteOf(account, model, e)] == s.routes[RouteOf(account, model, e)]
    ensures IsShortestWait(p.routes, account, model, es, now, wait) <==>
        IsShortestWait(s.routes, account, model, es, now, wait)
  {
  }

  lemma {:induction false} SameUsable(s: State, now: int, c: Settings, account: string, model: string,
      es: seq<Endpoint>)
    ensures Usable(Pruned(s, now, c).routes, account, model, es, now) == Usable(s.routes, account, model, es, now)
  {
    if es != [] {
      SameUsable(s, now, c, account, model, es[..|es| - 1]);
    }
  }

  // --------------------------------------------------------------------- registry

  lemma {:induction false} ScanStep(
    routes: map<RouteKey, Route>, account: string, model: string, es: seq<Endpoint>, e: Endpoint, now: int)
    ensures var k := RouteOf(account, model, e);
      var t := Touched(routes, account, model, es, now);
      var cooling := Cooling(routes, k, now);
      && (k in t <==> k in routes) && (k in t ==> t[k].cooldownUntil == routes[k].cooldownUntil)
      && Touched(routes, account, model, es + [e], now) == (if cooling then t[k := t[k].(lastAccess := now)] else t)
      && Usable(routes, account, model, es + [e], now) == (Usable(routes, account, model, es, now) + if cooling then []
          else [e])
      && Wait(routes, account, model, es + [e], now)
         == var w := Wait(routes, account, model, es, now);
            if cooling && (w == 0 || routes[k].cooldownUntil - now < w) then routes[k].cooldownUntil - now else w
  {
    assert (es + [e])[..|es|] == es;
    TouchedExactly(routes, account, model, es, now, RouteOf(account, model, e));
  }

  lemma {:induction false} OnlyWait(routes: map<RouteKey, Route>, account: string, model: string, e: Endpoint, now: int)
    requires Cooling(routes, RouteOf(account, model, e), now)
    ensures IsShortestWait(routes, account, model, [e], now, routes[RouteOf(account, model, e)].cooldownUntil - now)
  {
    assert e in [e];
  }

  lemma {:induction false} ShorterWait(
    routes: map<RouteKey, Route>, account: string, model: string, es: seq<Endpoint>, e: Endpoint, now: int, wait: int)
    requires IsShortestWait(routes, account, model, es, now, wait) && Cooling(routes, RouteOf(account, model, e), now)
    ensures IsShortestWait(routes, account, model, es + [e], now,
        Min(routes[RouteOf(account, model, e)].cooldownUntil - now, wait))
  {
    var all := es + [e];
    assert forall x :: x in all <==> x in es || x == e;
    var x :| x in es && wait == routes[RouteOf(account, model, x)].cooldownUntil - now;
    assert x in all && e in all;
  }

  lemma {:induction false} WaitIsShortest(
    routes: map<RouteKey, Route>, account: string, model: string, es: seq<Endpoint>, now: int)
    requires es != [] && Usable(routes, account, model, es, now) == []
    ensures IsShortestWait(routes, account, model, es, now, Wait(routes, account, model, es, now))
  {
    var init, last := es[..|es| - 1], es[|es| - 1];
    assert es == init + [last];
    if init == [] {
      assert es == [last];
      OnlyWait(routes, account, model, last, now);
    } else {
      WaitIsShortest(routes, account, model, init, now);
      ShorterWait(routes, account, model, init, last, now, Wait(routes, account, model, init, now));
    }
  }

  /** Walks a map for the smallest instant; an unset instant stands for nothing found yet. */
  method OldestKey<K(==)>(ages: map<K, int>) returns (key: K)
    requires ages != map[] && forall k :: k in ages ==> ages[k] > 0
    ensures key in ages && forall k :: k in ages ==> ages[key] <= ages[k]
  {
    key :| key in ages;
    var oldest := 0;
    var rest := ages.Keys;
    while rest != {}
      invariant rest <= ages.Keys
      invariant oldest == 0 ==> rest == ages.Keys
      invariant oldest != 0 ==> key in ages && oldest == ages[key] && forall k :: k in ages && k !in rest ==>
          oldest <= ages[k]
    {
      var k :| k in rest;
      if oldest == 0 || ages[k] < oldest {
        key, oldest := k, ages[k];
      }
      rest := rest - {k};
    }
  }

  method EvictOldest<K(==)>(ages: map<K, int>, limit: nat) returns (after: map<K, int>)
    requires forall k :: k in ages ==> ages[k] > 0
    ensures Evicts(ages, after, limit)
  {
    after := ages;
    while |after| > limit
      invariant after.Keys <= ages.Keys && forall k :: k in after ==> after[k] == ages[k]
      invariant |after| >= Min(|ages|, limit) && (|ages| <= limit ==> after == ages)
      invariant forall k, r :: k in after && r in ages && r !in after ==> ages[r] <= after[k]
    {
      assert after != map[];
      var oldest := OldestKey(after);
      DropOne(after, oldest);
      after := after - {oldest};
    }
  }

  class Registry {
    var routes: map<RouteKey, Route>
    var preferences: map<PreferenceKey, Preference>

    ghost function View(): State reads this {
      State(routes, preferences)
    }

    constructor ()
      ensures View() == EMPTY
    {
      routes := map[];
      preferences := map[];
    }

    method PruneExpired(now: int, c: Settings)
      modifies this
      ensures View() == Pruned(old(View()), now, c)
    {
      var stale := preferences.Keys;
      while stale != {}
        invariant stale <= old(preferences).Keys && routes == old(routes)
        invariant forall k :: k in preferences ==> k in old(preferences) && preferences[k] == old(preferences)[k]
        invariant forall k :: k in old(preferences) ==> (k in preferences <==>
            k in stale || old(preferences)[k].expiresAt > now)
      {
        var k :| k in stale;
        if preferences[k].expiresAt <= now {
          preferences := preferences - {k};
        }
        stale := stale - {k};
      }
      var idle := routes.Keys;
      while idle != {}
        invariant idle <= old(routes).Keys && preferences == Pruned(old(View()), now, c).preferences
        invariant forall k :: k in routes ==> k in old(routes) && routes[k] == old(routes)[k]
        invariant forall k :: k in old(routes) ==>
          (k in routes <==>
              k in idle || old(routes)[k].cooldownUntil > now || now - old(routes)[k].lastAccess < Affinity(c))
      {
        var k :| k in idle;
        if routes[k].cooldownUntil <= now && now - routes[k].lastAccess >= Affinity(c) {
          routes := routes - {k};
        }
        idle := idle - {k};
      }
    }

    method EnforceLimits(c: Settings)
      requires Sound(View())
      modifies this
      ensures Enforced(old(View()), View(), Limit(c))
    {
      EnforcePreferences(Limit(c));
      EnforceRoutes(Limit(c));
    }

    method EnforcePreferences(limit: nat)
      requires forall p :: p in preferences ==> preferences[p].lastAccess > 0
      modifies this`preferences
      ensures preferences.Keys <= old(preferences).Keys && forall k :: k in preferences ==>
          preferences[k] == old(preferences)[k]
      ensures Evicts(PreferenceAges(old(preferences)), PreferenceAges(preferences), limit)
    {
      var kept := EvictOldest(PreferenceAges(preferences), limit);
      preferences := map k | k in kept :: preferences[k];
      assert PreferenceAges(preferences) == kept;
    }

    method EnforceRoutes(limit: nat)
      requires forall k :: k in routes ==> routes[k].lastAccess > 0
      modifies this`routes
      ensures routes.Keys <= old(routes).Keys && forall k :: k in routes ==> routes[k] == old(routes)[k]
      ensures Evicts(RouteAges(old(routes)), RouteAges(routes), limit)
    {
      var kept := EvictOldest(RouteAges(routes), limit);
      routes := map k | k in kept :: routes[k];
      assert RouteAges(routes) == kept;
    }

    method AvailableEndpoints(account: string, model: string, auto: bool, endpoints: seq<Endpoint>, allowCooling: bool,
                              now: int, c: Settings) returns (offer: Offer)
      modifies this
      ensures Next(old(View()), Event(Select(account, model, auto, endpoints), now, c), View())
      ensures IsOffer(old(View()), account, model, auto, endpoints, allowCooling, now, offer)
    {
      if account == "" || model == "" || endpoints == [] {
        return Offered(endpoints);
      }
      PruneExpired(now, c);
      ghost var pruned := View();
      var ordered := OrderCandidates(account, model, auto, endpoints, now);
      var available, cooling, retryAfter := Scan(account, model, ordered, now);
      if available != [] {
        offer := Offered(available);
      } else if allowCooling && cooling != [] {
        offer := Offered(cooling);
      } else {
        offer := AllCooling(retryAfter);
      }
      assert IsOffer(pruned, account, model, auto, endpoints, allowCooling, now, offer) by {
        SameEndpoints(pruned, account, model, auto, endpoints, now);
      }
      PruningIsInvisible(old(View()), c, account, model, auto, endpoints, allowCooling, now, offer);
    }

    /** Starts with the remembered endpoint in automatic mode. */
    method OrderCandidates(account: string, model: string, auto: bool, endpoints: seq<Endpoint>, now: int)
      returns (ordered: seq<Endpoint>)
      modifies this
      ensures routes == old(routes)
      ensures preferences == Consulted(old(View()), account, model, auto, ordered, now).preferences
      ensures ordered == Candidates(old(View()), account, model, auto, endpoints, now)
    {
      ordered := endpoints;
      var k := PreferenceKey(account, model);
      if auto && k in preferences && preferences[k].expiresAt > now {
        preferences := preferences[k := preferences[k].(lastAccess := now)];
        var a := new Endpoint[|endpoints|](i requires 0 <= i < |endpoints| => endpoints[i]);
        assert a[..] == endpoints;
        MoveEndpointFirst(a, preferences[k].endpoint);
        ordered := a[..];
      }
    }

    /** Splits the ordered endpoints, touching the cooling routes and keeping the shortest wait. */
    method Scan(account: string, model: string, ordered: seq<Endpoint>, now: int)
      returns (available: seq<Endpoint>, cooling: seq<Endpoint>, retryAfter: int)
      modifies this
      ensures preferences == old(preferences)
      ensures routes == Touched(old(routes), account, model, ordered, now)
      ensures available == Usable(old(routes), account, model, ordered, now)
      ensures available == [] ==> cooling == ordered
      ensures available == [] && ordered != [] ==> IsShortestWait(old(routes), account, model, ordered, now, retryAfter)
    {
      ghost var before := routes;
      available, cooling, retryAfter := [], [], 0;
      for i := 0 to |ordered|
        invariant preferences == old(preferences)
        invariant routes == Touched(before, account, model, ordered[..i], now)
        invariant available == Usable(before, account, model, ordered[..i], now)
        invariant available == [] ==> cooling == ordered[..i]
        invariant retryAfter == Wait(before, account, model, ordered[..i], now)
      {
        var e := ordered[i];
        var k := RouteOf(account, model, e);
        assert ordered[..i + 1] == ordered[..i] + [e];
        ScanStep(before, account, model, ordered[..i], e, now);
        if k !in routes || routes[k].cooldownUntil <= now {
          available := available + [e];
        } else {
          cooling := cooling + [e];
          var remaining := routes[k].cooldownUntil - now;
          routes := routes[k := routes[k].(lastAccess := now)];
          if retryAfter == 0 || remaining < retryAfter {
            retryAfter := remaining;
          }
        }
      }
      assert ordered[..|ordered|] == ordered;
      if available == [] && ordered != [] {
        WaitIsShortest(before, account, model, ordered, now);
      }
    }

    method RecordFailure(account: string, model: string, e: Endpoint, f: Failure, now: int, c: Settings)
        returns (cooldown: int)
      requires Sound(View()) && now > 0
      modifies this
      ensures Next(old(View()), Event(Fail(account, model, e, f), now, c), View())
      ensures cooldown == if account == "" || model == "" || f.kind.Unrelated? then 0
                          else Failed(old(View()), account, model, e, f, now,
                              c).routes[RouteOf(account, model, e)].lastCooldown
    {
      if account == "" || model == "" || f.kind.Unrelated? {
        return 0;
      }
      var k := RouteOf(account, model, e);
      var failures := (if k in routes then routes[k].failures else 0) + 1;
      cooldown := BackoffLoop(Base(c), Maximum(c), failures);
      if f.kind.Quota? {
        cooldown := Maximum(c);
      }
      if Settled(f) {
        cooldown := Affinity(c);
      }
      if f.retryAfter > cooldown {
        cooldown := Min(f.retryAfter, DAY_MS);
      }
      routes := routes[k := Route(e.name, f.kind, failures, now + cooldown, cooldown, now, now)];
      var p := PreferenceKey(account, model);
      if p in preferences && preferences[p].endpoint == e.key {
        preferences := preferences - {p};
      }
      FailedSound(old(View()), account, model, e, f, now, c);
      assert View() == Failed(old(View()), account, model, e, f, now, c);
      EnforceLimits(c);
    }

    method RecordSuccess(account: string, model: string, e: Endpoint, now: int, c: Settings)
      requires Sound(View()) && now > 0
      modifies this
      ensures Next(old(View()), Event(Success(account, model, e), now, c), View())
    {
      if account == "" || model == "" {
        return;
      }
      routes := routes - {RouteOf(account, model, e)};
      preferences := preferences[PreferenceKey(account, model) := Preference(e.key, now + Affinity(c), now)];
      ghost var after := Succeeded(old(View()), account, model, e, now, c);
      assert View() == after;
      SucceededSound(old(View()), account, model, e, now, c);
      PrunedWithin(after, now, c);
      WithinSound(after, Pruned(after, now, c));
      PruneExpired(now, c);
      EnforceLimits(c);
    }

    method ClearFailure(account: string, model: string, e: Endpoint, now: int, c: Settings)
      modifies this
      ensures Next(old(View()), Event(Clear(account, model, e), now, c), View())
    {
      if account != "" && model != "" {
        routes := routes - {RouteOf(account, model, e)};
      }
    }
  }
}
