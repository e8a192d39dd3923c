/** What failures and successes of endpoints mean for later requests (proxy/account_endpoint_routes.go). */
module RouteMemory {
  import opened Common
  import opened EndpointRoutes

  // ------------------------------------------------------------- how long it cools

  /**
   * A refusal that will not pass soon cools for the affinity time, a quota for the maximum, and anything else doubles
   * from the base with every repeat; a longer retry hint wins, up to a day.
   */
  lemma {:induction false} CooldownByKind(c: Settings, failures: nat, f: Failure)
    requires failures >= 1
    ensures var d := Cooldown(c, failures, f);
      var chosen := match f.kind
        case Forbidden => Affinity(c)
        case ModelUnavailable => Affinity(c)
        case EndpointUnavailable => if f.status != 0 then Affinity(c) else Backoff(Base(c), Maximum(c), failures)
        case Quota => Maximum(c)
        case _ => Backoff(Base(c), Maximum(c), failures);
      d == if f.retryAfter > chosen then Min(f.retryAfter, 86_400_000) else chosen
    ensures Backoff(Base(c), Maximum(c), 1) == Base(c)
    ensures Base(c) < Maximum(c) ==>
      Backoff(Base(c), Maximum(c), failures + 1) == Min(2 * Backoff(Base(c), Maximum(c), failures), Maximum(c))
  {
    DoubledPower(Base(c), failures);
    PositiveProduct(Base(c), Pow2(failures - 1));
  }

  // --------------------------------------------------------------- what is forgotten

  /** A route that neither cools nor was used for the affinity time starts over; a preference ends at its deadline. */
  lemma {:induction false} IdleIsForgotten(s: State, now: int, c: Settings, k: RouteKey, p: PreferenceKey)
    ensures var t := Pruned(s, now, c);
      && (k in t.routes
          <==> k in s.routes && (now < s.routes[k].cooldownUntil || now < s.routes[k].lastAccess + Affinity(c)))
      && (p in t.preferences <==> p in s.preferences && now < s.preferences[p].expiresAt)
      && Within(t, s)
  {
    PrunedWithin(s, now, c);
  }

  /** Forgetting an account takes everything about it and nothing else. */
  lemma {:induction false} ForgetsOneAccount(s: State, account: string, k: RouteKey, p: PreferenceKey)
    ensures var t := Forgotten(s, account);
      && (k in t.routes <==> k in s.routes && k.account != account)
      && (p in t.preferences <==> p in s.preferences && p.account != account)
      && Within(t, s)
  {
  }

  // -------------------------------------------------------------- one step at a time

  lemma {:induction false} NothingEvicted<K>(before: map<K, int>, after: map<K, int>, limit: nat)
    requires Evicts(before, after, limit) && |before| <= limit
    ensures after.Keys == before.Keys
  {
    assert |after.Keys| == |after| && |before.Keys| == |before|;
    assert before.Keys == after.Keys + (before.Keys - after.Keys);
    assert |before.Keys - after.Keys| == 0;
  }

  lemma {:induction false} SmallerSet<K>(a: set<K>, b: set<K>)
    requires a <= b
    ensures |a| <= |b|
  {
    assert b == a + (b - a);
  }

  lemma {:induction false} MoreKeys<K, V>(m: map<K, V>, k: K, v: V)
    ensures |m[k := v]| <= |m| + 1
  {
    assert m[k := v].Keys == m.Keys + {k};
    assert |m[k := v].Keys| <= |m.Keys| + 1;
    assert |m.Keys| == |m| && |m[k := v].Keys| == |m[k := v]|;
  }

  lemma {:induction false} FewerKeys<K, V>(m: map<K, V>, n: map<K, V>)
    requires m.Keys <= n.Keys
    ensures |m| <= |n|
  {
    SmallerSet(m.Keys, n.Keys);
    assert |m.Keys| == |m| && |n.Keys| == |n|;
  }

  lemma {:induction false} EnforcedKeepsRoutes(s: State, t: State, limit: nat)
    requires Enforced(s, t, limit) && |s.routes| <= limit
    ensures t.routes == s.routes
  {
    FewerKeys(RouteAges(s.routes), RouteAges(s.routes));
    assert RouteAges(s.routes).Keys == s.routes.Keys && RouteAges(t.routes).Keys == t.routes.Keys;
    assert |RouteAges(s.routes).Keys| == |s.routes.Keys|;
    assert |RouteAges(s.routes)| == |s.routes|;
    NothingEvicted(RouteAges(s.routes), RouteAges(t.routes), limit);
  }

  lemma {:induction false} EnforcedKeepsPreferences(s: State, t: State, limit: nat)
    requires Enforced(s, t, limit) && |s.preferences| <= limit
    ensures t.preferences == s.preferences
  {
    assert PreferenceAges(s.preferences).Keys == s.preferences.Keys;
    assert PreferenceAges(t.preferences).Keys == t.preferences.Keys;
    assert |PreferenceAges(s.preferences).Keys| == |s.preferences.Keys|;
    assert |PreferenceAges(s.preferences)| == |s.preferences|;
    NothingEvicted(PreferenceAges(s.preferences), PreferenceAges(t.preferences), limit);
  }

  /** The route has failed so often and cools until then. */
  predicate Held(s: State, k: RouteKey, until: int, failures: nat) {
    k in s.routes && s.routes[k].cooldownUntil == until && s.routes[k].failures == failures
  }

  /** The event comes before the deadline, does not concern the route and evicts nothing. */
  predicate SparesRoute(s: State, ev: Event, k: RouteKey, deadline: int) {
    && ev.now < deadline
    && match ev.op
       case Select(_, _, _, _) => true
       case Fail(a, m, e, _) => RouteOf(a, m, e) != k && |s.routes| < Limit(ev.settings)
       case Success(a, m, e) => RouteOf(a, m, e) != k && |s.routes| <= Limit(ev.settings)
       case Clear(a, m, e) => RouteOf(a, m, e) != k
       case Prune => true
       case Forget(a) => a != k.account
       case Reset => false
  }

  lemma {:induction false} SparedRouteHeld(s: State, ev: Event, t: State, k: RouteKey, deadline: int, failures: nat)
    requires Held(s, k, deadline, failures) && SparesRoute(s, ev, k, deadline) && Next(s, ev, t)
    ensures Held(t, k, deadline, failures)
  {
    var now, c := ev.now, ev.settings;
    match ev.op
    case Select(a, m, auto, es) =>
      var p := Pruned(s, now, c);
      TouchedExactly(p.routes, a, m, Candidates(p, a, m, auto, es, now), now, k);
    case Fail(a, m, e, f) =>
      var u := Failed(s, a, m, e, f, now, c);
      if a != "" && m != "" && !f.kind.Unrelated? {
        MoreKeys(s.routes, RouteOf(a, m, e), u.routes[RouteOf(a, m, e)]);
        EnforcedKeepsRoutes(u, t, Limit(c));
      }
    case Success(a, m, e) =>
      var u := Succeeded(s, a, m, e, now, c);
      if a != "" && m != "" {
        FewerKeys(Pruned(u, now, c).routes, s.routes);
        EnforcedKeepsRoutes(Pruned(u, now, c), t, Limit(c));
      }
    case Clear(_, _, _) =>
    case Prune =>
    case Forget(_) =>
    case Reset =>
  }

  /** The endpoint is remembered for the account and model until then. */
  predicate Remembered(s: State, p: PreferenceKey, endpoint: string, until: int) {
    p in s.preferences && s.preferences[p].endpoint == endpoint && s.preferences[p].expiresAt == until
  }

  /** The event comes before the deadline, leaves the preference alone and evicts nothing. */
  predicate SparesPreference(s: State, ev: Event, p: PreferenceKey, endpoint: string, deadline: int) {
    && ev.now < deadline
    && match ev.op
       case Select(_, _, _, _) => true
       case Fail(a, m, e, _) =>
         !(PreferenceKey(a, m) == p && e.key == endpoint) && |s.preferences| <= Limit(ev.settings)
       case Success(a, m, _) => PreferenceKey(a, m) != p && |s.preferences| < Limit(ev.settings)
       case Clear(_, _, _) => true
       case Prune => true
       case Forget(a) => a != p.account
       case Reset => false
  }

  lemma {:induction false} FailureElsewhere(s: State, a: string, m: string, e: Endpoint, f: Failure, now: int,
      c: Settings, t: State)
    requires Enforced(Failed(s, a, m, e, f, now, c), t, Limit(c)) && |s.preferences| <= Limit(c)
    ensures forall p :: p in s.preferences && !(p == PreferenceKey(a, m) && s.preferences[p].endpoint == e.key) ==>
      p in t.preferences && t.preferences[p] == s.preferences[p]
  {
    var u := Failed(s, a, m, e, f, now, c);
    FewerKeys(u.preferences, s.preferences);
    EnforcedKeepsPreferences(u, t, Limit(c));
  }

  lemma {:induction false} SuccessElsewhere(s: State, a: string, m: string, e: Endpoint, now: int, c: Settings,
      t: State)
    requires Enforced(Pruned(Succeeded(s, a, m, e, now, c), now, c), t, Limit(c)) && |s.preferences| < Limit(c)
    ensures forall p :: p in s.preferences && p != PreferenceKey(a, m) && now < s.preferences[p].expiresAt ==>
      p in t.preferences && t.preferences[p] == s.preferences[p]
  {
    var u := Succeeded(s, a, m, e, now, c);
    MoreKeys(s.preferences, PreferenceKey(a, m), u.preferences[PreferenceKey(a, m)]);
    FewerKeys(Pruned(u, now, c).preferences, u.preferences);
    EnforcedKeepsPreferences(Pruned(u, now, c), t, Limit(c));
  }

  lemma {:induction false} SparedPreferenceRemembered(s: State, ev: Event, t: State, p: PreferenceKey,
      endpoint: string, deadline: int)
    requires Remembered(s, p, endpoint, deadline) && SparesPreference(s, ev, p, endpoint, deadline) && Next(s, ev, t)
    ensures Remembered(t, p, endpoint, deadline)
  {
    var now, c := ev.now, ev.settings;
    match ev.op
    case Select(_, _, _, _) =>
    case Fail(a, m, e, f) =>
      if a != "" && m != "" && !f.kind.Unrelated? {
        FailureElsewhere(s, a, m, e, f, now, c, t);
      }
    case Success(a, m, e) =>
      if a != "" && m != "" {
        SuccessElsewhere(s, a, m, e, now, c, t);
      }
    case Clear(_, _, _) =>
    case Prune =>
    case Forget(_) =>
    case Reset =>
  }

  // ------------------------------------------------------------------------- runs

  ghost predicate KeepsRoute(s: State, t: State, k: RouteKey, until: int, failures: nat) {
    Held(s, k, until, failures) ==> Held(t, k, until, failures)
  }

  lemma {:induction false} KeepsRouteAt(ss: seq<State>, evs: seq<Event>, n: nat, k: RouteKey, deadline: int,
      failures: nat)
    requires IsRun(ss, evs) && n < |evs| && SparesRoute(ss[n], evs[n], k, deadline)
    ensures KeepsRoute(ss[n], ss[n + 1], k, deadline, failures)
  {
    if Held(ss[n], k, deadline, failures) {
      SparedRouteHeld(ss[n], evs[n], ss[n + 1], k, deadline, failures);
    }
  }

  lemma {:induction false} HeldUntil(ss: seq<State>, i: nat, j: nat, k: RouteKey, deadline: int, failures: nat)
    requires i <= j < |ss| && Held(ss[i], k, deadline, failures)
    requires forall n :: i <= n < j ==> KeepsRoute(ss[n], ss[n + 1], k, deadline, failures)
    ensures Held(ss[j], k, deadline, failures)
  {
    if i < j {
      HeldUntil(ss, i, j - 1, k, deadline, failures);
      assert KeepsRoute(ss[j - 1], ss[j], k, deadline, failures);
    }
  }

  ghost predicate KeepsPreference(s: State, t: State, p: PreferenceKey, endpoint: string, until: int) {
    Remembered(s, p, endpoint, until) ==> Remembered(t, p, endpoint, until)
  }

  lemma {:induction false} KeepsPreferenceAt(ss: seq<State>, evs: seq<Event>, n: nat, p: PreferenceKey,
      endpoint: string, deadline: int)
    requires IsRun(ss, evs) && n < |evs| && SparesPreference(ss[n], evs[n], p, endpoint, deadline)
    ensures KeepsPreference(ss[n], ss[n + 1], p, endpoint, deadline)
  {
    if Remembered(ss[n], p, endpoint, deadline) {
      SparedPreferenceRemembered(ss[n], evs[n], ss[n + 1], p, endpoint, deadline);
    }
  }

  lemma {:induction false} RememberedUntil(ss: seq<State>, i: nat, j: nat, p: PreferenceKey, endpoint: string,
      deadline: int)
    requires i <= j < |ss| && Remembered(ss[i], p, endpoint, deadline)
    requires forall n :: i <= n < j ==> KeepsPreference(ss[n], ss[n + 1], p, endpoint, deadline)
    ensures Remembered(ss[j], p, endpoint, deadline)
  {
    if i < j {
      RememberedUntil(ss, i, j - 1, p, endpoint, deadline);
      assert KeepsPreference(ss[j - 1], ss[j], p, endpoint, deadline);
    }
  }

  /** How often the route had failed in a row before. */
  function Before(s: State, k: RouteKey): nat {
    if k in s.routes then s.routes[k].failures else 0
  }

  lemma {:induction false} FailureHolds(s: State, ev: Event, t: State)
    requires ev.op.Fail? && ev.op.account != "" && ev.op.model != "" && !ev.op.failure.kind.Unrelated?
    requires Next(s, ev, t) && |s.routes| < Limit(ev.settings)
    ensures var k := RouteOf(ev.op.account, ev.op.model, ev.op.endpoint); var n := Before(s, k) + 1;
      Held(t, k, ev.now + Cooldown(ev.settings, n, ev.op.failure), n)
  {
    var op, c := ev.op, ev.settings;
    var u := Failed(s, op.account, op.model, op.endpoint, op.failure, ev.now, c);
    MoreKeys(s.routes, RouteOf(op.account, op.model, op.endpoint),
        u.routes[RouteOf(op.account, op.model, op.endpoint)]);
    EnforcedKeepsRoutes(u, t, Limit(c));
  }

  /**
   * A failed endpoint is left out of every offer before its cooldown is over and is back in from then on, as long as
   * nothing else concerned its route and nothing was evicted. The cooldown counts one failure more than before.
   */
  lemma {:induction false} FailureIsShunned(ss: seq<State>, evs: seq<Event>, i: nat, j: nat, auto: bool,
      es: seq<Endpoint>, now: int, offer: Offer)
    requires IsRun(ss, evs) && i < j < |ss| && evs[i].op.Fail? && evs[i].op.account != "" && evs[i].op.model != ""
    requires !evs[i].op.failure.kind.Unrelated? && |ss[i].routes| < Limit(evs[i].settings)
    requires var k := RouteOf(evs[i].op.account, evs[i].op.model, evs[i].op.endpoint);
      var deadline := evs[i].now + Cooldown(evs[i].settings, Before(ss[i], k) + 1, evs[i].op.failure);
      forall n :: i < n < j ==> SparesRoute(ss[n], evs[n], k, deadline)
    requires evs[i].op.endpoint in es
    requires IsOffer(ss[j], evs[i].op.account, evs[i].op.model, auto, es, false, now, offer)
    ensures var k := RouteOf(evs[i].op.account, evs[i].op.model, evs[i].op.endpoint);
      (offer.Offered? && evs[i].op.endpoint in offer.endpoints)
      <==> now >= evs[i].now + Cooldown(evs[i].settings, Before(ss[i], k) + 1, evs[i].op.failure)
  {
    var op := evs[i].op;
    var k := RouteOf(op.account, op.model, op.endpoint);
    var n := Before(ss[i], k) + 1;
    var deadline := evs[i].now + Cooldown(evs[i].settings, n, op.failure);
    FailureHoldsInRun(ss, evs, i, j);
    OfferedOnceCooled(ss[j], op.account, op.model, auto, es, now, offer, op.endpoint, deadline, n);
  }

  lemma {:induction false} FailureHoldsInRun(ss: seq<State>, evs: seq<Event>, i: nat, j: nat)
    requires IsRun(ss, evs) && i < j < |ss| && evs[i].op.Fail? && evs[i].op.account != "" && evs[i].op.model != ""
    requires !evs[i].op.failure.kind.Unrelated? && |ss[i].routes| < Limit(evs[i].settings)
    requires var k := RouteOf(evs[i].op.account, evs[i].op.model, evs[i].op.endpoint);
      var deadline := evs[i].now + Cooldown(evs[i].settings, Before(ss[i], k) + 1, evs[i].op.failure);
      forall n :: i < n < j ==> SparesRoute(ss[n], evs[n], k, deadline)
    ensures var k := RouteOf(evs[i].op.account, evs[i].op.model, evs[i].op.endpoint); var n := Before(ss[i], k) + 1;
      Held(ss[j], k, evs[i].now + Cooldown(evs[i].settings, n, evs[i].op.failure), n)
  {
    var k := RouteOf(evs[i].op.account, evs[i].op.model, evs[i].op.endpoint);
    var failures := Before(ss[i], k) + 1;
    var deadline := evs[i].now + Cooldown(evs[i].settings, failures, evs[i].op.failure);
    FailureHoldsAt(ss, evs, i);
    forall n | i < n < j ensures KeepsRoute(ss[n], ss[n + 1], k, deadline, failures) {
      KeepsRouteAt(ss, evs, n, k, deadline, failures);
    }
    HeldUntil(ss, i + 1, j, k, deadline, failures);
  }

  lemma {:induction false} FailureHoldsAt(ss: seq<State>, evs: seq<Event>, i: nat)
    requires IsRun(ss, evs) && i < |evs| && evs[i].op.Fail? && evs[i].op.account != "" && evs[i].op.model != ""
    requires !evs[i].op.failure.kind.Unrelated? && |ss[i].routes| < Limit(evs[i].settings)
    ensures var k := RouteOf(evs[i].op.account, evs[i].op.model, evs[i].op.endpoint); var n := Before(ss[i], k) + 1;
      Held(ss[i + 1], k, evs[i].now + Cooldown(evs[i].settings, n, evs[i].op.failure), n)
  {
    FailureHolds(ss[i], evs[i], ss[i + 1]);
  }

  lemma {:induction false} OfferedOnceCooled(s: State, account: string, model: string, auto: bool, es: seq<Endpoint>,
      now: int, offer: Offer, e: Endpoint, deadline: int, failures: nat)
    requires Held(s, RouteOf(account, model, e), deadline, failures) && e in es && account != "" && model != ""
    requires IsOffer(s, account, model, auto, es, false, now, offer)
    ensures (offer.Offered? && e in offer.endpoints) <==> now >= deadline
  {
    WaitsOnlyWhenAllCooling(s, account, model, auto, es, false, now, offer);
  }

  lemma {:induction false} SuccessRemembers(s: State, ev: Event, t: State)
    requires ev.op.Success? && ev.op.account != "" && ev.op.model != ""
    requires Next(s, ev, t) && |s.preferences| < Limit(ev.settings)
    ensures Remembered(t, PreferenceKey(ev.op.account, ev.op.model), ev.op.endpoint.key, ev.now + Affinity(ev.settings))
  {
    var op, c, p := ev.op, ev.settings, PreferenceKey(ev.op.account, ev.op.model);
    var u := Succeeded(s, op.account, op.model, op.endpoint, ev.now, c);
    MoreKeys(s.preferences, p, u.preferences[p]);
    FewerKeys(Pruned(u, ev.now, c).preferences, u.preferences);
    EnforcedKeepsPreferences(Pruned(u, ev.now, c), t, Limit(c));
  }

  /**
   * An endpoint that served is offered first in automatic mode until the affinity time is over, and from then on the
   * order is the caller's again, as long as it did not fail, no other was remembered and nothing was evicted.
   */
  lemma {:induction false} SuccessIsPreferred(ss: seq<State>, evs: seq<Event>, i: nat, j: nat, es: seq<Endpoint>,
      allow: bool, now: int, offer: Offer)
    requires IsRun(ss, evs) && i < j < |ss| && evs[i].op.Success? && evs[i].op.account != "" && evs[i].op.model != ""
    requires |ss[i].preferences| < Limit(evs[i].settings)
    requires forall n :: i < n < j ==>
      SparesPreference(ss[n], evs[n], PreferenceKey(evs[i].op.account, evs[i].op.model), evs[i].op.endpoint.key,
                       evs[i].now + Affinity(evs[i].settings))
    requires exists e :: e in es && e.key == evs[i].op.endpoint.key
    requires IsOffer(ss[j], evs[i].op.account, evs[i].op.model, true, es, allow, now, offer)
    ensures if now < evs[i].now + Affinity(evs[i].settings)
      then offer.Offered? && offer.endpoints != [] && offer.endpoints[0].key == evs[i].op.endpoint.key
      else IsOffer(ss[j], evs[i].op.account, evs[i].op.model, false, es, allow, now, offer)
  {
    var op := evs[i].op;
    var p := PreferenceKey(op.account, op.model);
    var deadline := evs[i].now + Affinity(evs[i].settings);
    SuccessRememberedInRun(ss, evs, i, j);
    RememberedNeverCooling(ss, evs, j);
    PreferredWhileRemembered(ss[j], op.account, op.model, es, allow, now, offer, op.endpoint.key, deadline);
  }

  lemma {:induction false} SuccessRememberedInRun(ss: seq<State>, evs: seq<Event>, i: nat, j: nat)
    requires IsRun(ss, evs) && i < j < |ss| && evs[i].op.Success? && evs[i].op.account != "" && evs[i].op.model != ""
    requires |ss[i].preferences| < Limit(evs[i].settings)
    requires forall n :: i < n < j ==>
      SparesPreference(ss[n], evs[n], PreferenceKey(evs[i].op.account, evs[i].op.model), evs[i].op.endpoint.key,
                       evs[i].now + Affinity(evs[i].settings))
    ensures Remembered(ss[j], PreferenceKey(evs[i].op.account, evs[i].op.model), evs[i].op.endpoint.key,
                       evs[i].now + Affinity(evs[i].settings))
  {
    var p, key := PreferenceKey(evs[i].op.account, evs[i].op.model), evs[i].op.endpoint.key;
    var deadline := evs[i].now + Affinity(evs[i].settings);
    SuccessRemembersAt(ss, evs, i);
    forall n | i < n < j ensures KeepsPreference(ss[n], ss[n + 1], p, key, deadline) {
      KeepsPreferenceAt(ss, evs, n, p, key, deadline);
    }
    RememberedUntil(ss, i + 1, j, p, key, deadline);
  }

  lemma {:induction false} SuccessRemembersAt(ss: seq<State>, evs: seq<Event>, i: nat)
    requires IsRun(ss, evs) && i < |evs| && evs[i].op.Success? && evs[i].op.account != "" && evs[i].op.model != ""
    requires |ss[i].preferences| < Limit(evs[i].settings)
    ensures Remembered(ss[i + 1], PreferenceKey(evs[i].op.account, evs[i].op.model), evs[i].op.endpoint.key,
                       evs[i].now + Affinity(evs[i].settings))
  {
    SuccessRemembers(ss[i], evs[i], ss[i + 1]);
  }

  lemma {:induction false} PreferredWhileRemembered(s: State, account: string, model: string, es: seq<Endpoint>,
      allow: bool, now: int, offer: Offer, key: string, deadline: int)
    requires Sound(s) && Remembered(s, PreferenceKey(account, model), key, deadline) && account != "" && model != ""
    requires exists e :: e in es && e.key == key
    requires IsOffer(s, account, model, true, es, allow, now, offer)
    ensures if now < deadline then offer.Offered? && offer.endpoints != [] && offer.endpoints[0].key == key
      else IsOffer(s, account, model, false, es, allow, now, offer)
  {
    if now < deadline {
      OfferedFirst(s, account, model, es, allow, now, offer);
    }
  }

  /** Outside automatic mode whatever is usable is offered in the caller's order. */
  lemma {:induction false} ExplicitOrderIsKept(s: State, account: string, model: string, es: seq<Endpoint>, now: int,
      offer: Offer)
    requires IsOffer(s, account, model, false, es, false, now, offer) && offer.Offered? && account != "" && model != ""
    ensures offer.endpoints == Usable(s.routes, account, model, es, now)
  {
  }
}
