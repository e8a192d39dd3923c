/** Longest-prefix matching and creation reservations of one cache scope (proxy/cache_tracker.go). */
module PrefixMatch {
  import opened Common

  /** A SHA-256 fingerprint; only equality matters. Instants and lifetimes are milliseconds. */
  type Fingerprint = nat

  const HOUR := 3_600_000
  const DEFAULT_TTL := 300_000
  const RESERVATION_TTL := 600_000

  datatype Breakpoint = Breakpoint(fingerprint: Fingerprint, tokens: int, ttl: int)

  datatype Profile = Profile(breakpoints: seq<Breakpoint>, totalInputTokens: int)

  // ------------------------------------------------------------------- profiles

  /** Strictly growing positive token counts within the total: what every built profile satisfies. */
  predicate Built(p: Profile) {
    && p.breakpoints != [] && p.totalInputTokens > 0
    && (forall i :: 0 <= i < |p.breakpoints| ==> 0 < p.breakpoints[i].tokens <= p.totalInputTokens)
    && (forall i, j :: 0 <= i < j < |p.breakpoints| ==> p.breakpoints[i].tokens < p.breakpoints[j].tokens)
  }

  function Bounded(b: Breakpoint, total: int): int {
    var tokens := Max(b.tokens, 0);
    if total > 0 && tokens > total then total else tokens
  }

  /** The largest bounded count, zero for none. */
  function LastTokens(bs: seq<Breakpoint>, total: int): int {
    if bs == [] then 0 else Max(LastTokens(bs[..|bs| - 1], total), Bounded(bs[|bs| - 1], total))
  }

  /** Keeps the breakpoints that extend the covered prefix. */
  function Extending(bs: seq<Breakpoint>, total: int): seq<Breakpoint> {
    if bs == [] then [] else
      var b := bs[|bs| - 1];
      var kept := Extending(bs[..|bs| - 1], total);
      if Bounded(b, total) > LastTokens(bs[..|bs| - 1], total) then kept + [b.(tokens := Bounded(b, total))] else kept
  }

  lemma {:induction false} ExtendingGrows(bs: seq<Breakpoint>, total: int)
    requires total > 0
    ensures var k := Extending(bs, total);
      && (forall i :: 0 <= i < |k| ==> 0 < k[i].tokens <= total)
      && (forall i, j :: 0 <= i < j < |k| ==> k[i].tokens < k[j].tokens)
      && LastTokens(bs, total) == (if k == [] then 0 else k[|k| - 1].tokens)
  {
    if bs != [] {
      ExtendingGrows(bs[..|bs| - 1], total);
    }
  }

  /** Breakpoint i, bounded to the total, is b and exceeds every earlier one. */
  predicate Extends(bs: seq<Breakpoint>, total: int, b: Breakpoint, i: int)
    requires 0 <= i < |bs|
  {
    && b == bs[i].(tokens := Bounded(bs[i], total)) && b.tokens > 0
    && forall j :: 0 <= j < i ==> Bounded(bs[j], total) < b.tokens
  }

  /** Kept are exactly the breakpoints whose bounded count exceeds every earlier one, in order since counts grow. */
  lemma {:induction false} KeptIffExtending(bs: seq<Breakpoint>, total: int, b: Breakpoint)
    ensures b in Extending(bs, total) <==> exists i :: 0 <= i < |bs| && Extends(bs, total, b, i)
  {
    if bs != [] {
      var init := bs[..|bs| - 1];
      KeptIffExtending(init, total, b);
      LastTokensIsLargest(init, total);
      assert forall j :: 0 <= j < |init| ==> init[j] == bs[j];
      assert forall i :: 0 <= i < |init| ==> (Extends(init, total, b, i) <==> Extends(bs, total, b, i));
      assert Extends(bs, total, b, |init|)
        <==> b == bs[|init|].(tokens := Bounded(bs[|init|], total)) && b.tokens > LastTokens(init, total);
    }
  }

  lemma {:induction false} LastTokensIsLargest(bs: seq<Breakpoint>, total: int)
    ensures LastTokens(bs, total) >= 0
    ensures forall i :: 0 <= i < |bs| ==> Bounded(bs[i], total) <= LastTokens(bs, total)
    ensures LastTokens(bs, total) == 0 || exists i :: 0 <= i < |bs| && Bounded(bs[i], total) == LastTokens(bs, total)
  {
    if bs != [] {
      LastTokensIsLargest(bs[..|bs| - 1], total);
      var init := bs[..|bs| - 1];
      assert forall i :: 0 <= i < |init| ==> init[i] == bs[i];
      if i :| 0 <= i < |init| && Bounded(init[i], total) == LastTokens(init, total) {
        assert Bounded(bs[i], total) == LastTokens(init, total);
      }
    }
  }

  method FinalizePromptCacheProfile(bs: seq<Breakpoint>, cumulative: int, totalInput: int) returns (p: Option<Profile>)
    ensures p.Some? ==> Built(p.value)
    ensures p.Some? ==> var total := if totalInput <= 0 then cumulative else totalInput;
                        p.value == Profile(Extending(bs, total), total)
                        && LastTokens(bs, total) == p.value.breakpoints[|p.value.breakpoints| - 1].tokens
    ensures p.None? <==> var total := if totalInput <= 0 then cumulative else totalInput;
                         total <= 0 || LastTokens(bs, total) == 0
  {
    var total := if totalInput <= 0 then cumulative else totalInput;
    if total <= 0 {
      return None;
    }
    var normalized: seq<Breakpoint> := [];
    var previous := 0;
    for i := 0 to |bs|
      invariant normalized == Extending(bs[..i], total)
      invariant previous == LastTokens(bs[..i], total)
    {
      var b := bs[i];
      assert bs[..i + 1][..i] == bs[..i];
      var tokens := Max(b.tokens, 0);
      if tokens > total {
        tokens := total;
      }
      if tokens > previous {
        normalized := normalized + [b.(tokens := tokens)];
        previous := tokens;
      }
    }
    assert bs[..|bs|] == bs;
    ExtendingGrows(bs, total);
    if |normalized| == 0 {
      return None;
    }
    p := Some(Profile(normalized, total));
  }

  // ------------------------------------------------------------- TTL breakdown

  /** Tokens created after a matched prefix, split into the five-minute and one-hour lifetimes. */
  function Breakdown(bs: seq<Breakpoint>, total: int, matched: int): (int, int) {
    if bs == [] then (0, 0) else
      var (five, hour) := Breakdown(bs[..|bs| - 1], total, matched);
      var previous := Max(matched, LastTokens(bs[..|bs| - 1], total));
      var b := bs[|bs| - 1];
      var current := Bounded(b, total);
      if current <= previous then (five, hour)
      else if b.ttl >= HOUR then (five, hour + current - previous)
      else (five + current - previous, hour)
  }

  /** The two lifetimes together cover exactly what the prefix leaves uncovered. */
  lemma {:induction false} BreakdownCovers(bs: seq<Breakpoint>, total: int, matched: int)
    requires matched >= 0
    ensures var (five, hour) := Breakdown(bs, total, matched);
      five >= 0 && hour >= 0 && five + hour == Max(LastTokens(bs, total) - matched, 0)
  {
    if bs != [] {
      BreakdownCovers(bs[..|bs| - 1], total, matched);
    }
  }

  /** What one breakpoint adds to the longest prefix covered so far. */
  function Increment(bs: seq<Breakpoint>, total: int, matched: int, i: nat): int
    requires i < |bs|
  {
    Max(Bounded(bs[i], total) - Max(matched, LastTokens(bs[..i], total)), 0)
  }

  /** The increments of the first n breakpoints, those that live an hour or longer or the others. */
  function Increments(bs: seq<Breakpoint>, total: int, matched: int, long: bool, n: nat): int
    requires n <= |bs|
  {
    if n == 0 then 0 else
      Increments(bs, total, matched, long, n - 1)
      + if (bs[n - 1].ttl >= 3_600_000) == long then Increment(bs, total, matched, n - 1) else 0
  }

  lemma {:induction false} OneMoreBreakpoint(bs: seq<Breakpoint>, total: int, matched: int, n: nat)
    requires 0 < n <= |bs|
    ensures var (five, hour) := Breakdown(bs[..n - 1], total, matched);
      var more := Increment(bs, total, matched, n - 1);
      Breakdown(bs[..n], total, matched)
      == if bs[n - 1].ttl >= 3_600_000 then (five, hour + more) else (five + more, hour)
  {
    var prefix := bs[..n];
    assert prefix[..|prefix| - 1] == bs[..n - 1] && prefix[|prefix| - 1] == bs[n - 1];
  }

  lemma {:induction false} BreakdownOfPrefix(bs: seq<Breakpoint>, total: int, matched: int, n: nat)
    requires n <= |bs|
    ensures Breakdown(bs[..n], total, matched)
         == (Increments(bs, total, matched, false, n), Increments(bs, total, matched, true, n))
  {
    if n > 0 {
      BreakdownOfPrefix(bs, total, matched, n - 1);
      OneMoreBreakpoint(bs, total, matched, n);
    }
  }

  lemma {:induction false} NoIncrements(bs: seq<Breakpoint>, total: int, matched: int, long: bool, n: nat)
    requires n <= |bs| && forall i :: 0 <= i < n ==> (bs[i].ttl >= 3_600_000) != long
    ensures Increments(bs, total, matched, long, n) == 0
  {
    if n > 0 {
      NoIncrements(bs, total, matched, long, n - 1);
    }
  }

  /** Each breakpoint's increment lands in its own lifetime; a lifetime that no breakpoint has gets nothing. */
  lemma {:induction false} BreakdownByLifetime(bs: seq<Breakpoint>, total: int, matched: int)
    ensures var (five, hour) := Breakdown(bs, total, matched);
      && five == Increments(bs, total, matched, false, |bs|) && hour == Increments(bs, total, matched, true, |bs|)
      && ((forall i :: 0 <= i < |bs| ==> bs[i].ttl >= 3_600_000) ==> five == 0)
      && ((forall i :: 0 <= i < |bs| ==> bs[i].ttl < 3_600_000) ==> hour == 0)
  {
    BreakdownOfPrefix(bs, total, matched, |bs|);
    assert bs[..|bs|] == bs;
    if forall i :: 0 <= i < |bs| ==> bs[i].ttl >= 3_600_000 {
      NoIncrements(bs, total, matched, false, |bs|);
    }
    if forall i :: 0 <= i < |bs| ==> bs[i].ttl < 3_600_000 {
      NoIncrements(bs, total, matched, true, |bs|);
    }
  }

  method ComputePromptCacheTTLBreakdown(p: Profile, matched: int) returns (five: int, hour: int)
    requires matched >= 0
    ensures (five, hour) == Breakdown(p.breakpoints, p.totalInputTokens, matched)
    ensures five + hour == Max(LastTokens(p.breakpoints, p.totalInputTokens) - matched, 0)
  {
    var bs := p.breakpoints;
    five, hour := 0, 0;
    var previous := matched;
    for i := 0 to |bs|
      invariant (five, hour) == Breakdown(bs[..i], p.totalInputTokens, matched)
      invariant previous == Max(matched, LastTokens(bs[..i], p.totalInputTokens))
    {
      assert bs[..i + 1][..i] == bs[..i];
      var current := Bounded(bs[i], p.totalInputTokens);
      if current > previous {
        if bs[i].ttl >= HOUR {
          hour := hour + (current - previous);
        } else {
          five := five + (current - previous);
        }
        previous := current;
      }
    }
    assert bs[..|bs|] == bs;
    BreakdownCovers(bs, p.totalInputTokens, matched);
  }

  // ------------------------------------------------------------------- matching

  datatype Entry = Entry(expiresAt: int, ttl: int, lastAccess: int)

  datatype Pending = Pending(expiresAt: int, token: nat)

  /** One account's entries and creation reservations. */
  datatype Scope = Scope(entries: map<Fingerprint, Entry>, pending: map<Fingerprint, Pending>)

  function Pruned(s: Scope, now: int): Scope {
    Scope(map f | f in s.entries && s.entries[f].expiresAt > now :: s.entries[f],
          map f | f in s.pending && s.pending[f].expiresAt > now :: s.pending[f])
  }

  predicate LargeEnough(b: Breakpoint, total: int, minTokens: int) {
    Bounded(b, total) >= minTokens && Bounded(b, total) > 0
  }

  /** The last of the first n breakpoints that is large enough and stored, or -1. */
  function LastMatch(p: Profile, entries: map<Fingerprint, Entry>, minTokens: int, n: nat): (r: int)
    requires n <= |p.breakpoints|
    ensures -1 <= r < n
  {
    if n == 0 then -1
    else if LargeEnough(p.breakpoints[n - 1], p.totalInputTokens, minTokens)
        && p.breakpoints[n - 1].fingerprint in entries
    then n - 1
    else LastMatch(p, entries, minTokens, n - 1)
  }

  /** v is the largest bounded count over the large-enough breakpoints found in the entries; zero when there is none. */
  ghost predicate LongestStored(p: Profile, entries: map<Fingerprint, Entry>, minTokens: int, v: int) {
    && (forall k :: 0 <= k < |p.breakpoints| && Stored(p, entries, minTokens, k) ==>
          0 < Bounded(p.breakpoints[k], p.totalInputTokens) <= v)
    && (v == 0 || exists k :: 0 <= k < |p.breakpoints| && Stored(p, entries, minTokens, k)
                              && Bounded(p.breakpoints[k], p.totalInputTokens) == v)
  }

  predicate Stored(p: Profile, entries: map<Fingerprint, Entry>, minTokens: int, i: int)
    requires 0 <= i < |p.breakpoints|
  {
    LargeEnough(p.breakpoints[i], p.totalInputTokens, minTokens) && p.breakpoints[i].fingerprint in entries
  }

  function MatchedTokens(p: Profile, i: int): int
    requires -1 <= i < |p.breakpoints|
  {
    if i < 0 then 0 else Min(Bounded(p.breakpoints[i], p.totalInputTokens),
        LastTokens(p.breakpoints, p.totalInputTokens))
  }

  lemma {:induction false} LastTokensOfBuilt(p: Profile, n: nat)
    requires Built(p) && 0 < n <= |p.breakpoints|
    ensures LastTokens(p.breakpoints[..n], p.totalInputTokens) == p.breakpoints[n - 1].tokens
  {
    assert p.breakpoints[..n][..n - 1] == p.breakpoints[..n - 1];
    if n > 1 {
      LastTokensOfBuilt(p, n - 1);
    }
  }

  lemma {:induction false} BoundedOfBuilt(p: Profile, i: nat)
    requires Built(p) && i < |p.breakpoints|
    ensures Bounded(p.breakpoints[i], p.totalInputTokens) == p.breakpoints[i].tokens
    ensures MatchedTokens(p, i) == p.breakpoints[i].tokens
    ensures LastTokens(p.breakpoints, p.totalInputTokens) == p.breakpoints[|p.breakpoints| - 1].tokens
  {
    LastTokensOfBuilt(p, |p.breakpoints|);
    assert p.breakpoints[..|p.breakpoints|] == p.breakpoints;
  }

  lemma {:induction false} MatchIsLastStored(p: Profile, entries: map<Fingerprint, Entry>, minTokens: int, n: nat)
    requires n <= |p.breakpoints|
    ensures var i := LastMatch(p, entries, minTokens, n);
      && (i >= 0 ==> Stored(p, entries, minTokens, i))
      && forall k :: i < k < n ==> !Stored(p, entries, minTokens, k)
  {
    if n > 0 {
      MatchIsLastStored(p, entries, minTokens, n - 1);
    }
  }

  /** On a built profile the backward scan finds the maximum over all stored breakpoints. */
  lemma {:induction false} ScanFindsLongest(p: Profile, entries: map<Fingerprint, Entry>, minTokens: int)
    requires Built(p)
    ensures LongestStored(p, entries, minTokens, MatchedTokens(p, LastMatch(p, entries, minTokens, |p.breakpoints|)))
  {
    var n := |p.breakpoints|;
    var i := LastMatch(p, entries, minTokens, n);
    MatchIsLastStored(p, entries, minTokens, n);
    if i >= 0 {
      BoundedOfBuilt(p, i);
    }
    forall k | 0 <= k < n && Stored(p, entries, minTokens, k)
      ensures Bounded(p.breakpoints[k], p.totalInputTokens) <= MatchedTokens(p, i)
    {
      BoundedOfBuilt(p, k);
    }
  }

  // ---------------------------------------------------------------- one lookup

  datatype Reservation = Reservation(fingerprint: Fingerprint, token: nat)

  datatype Lookup = Lookup(
    read: int, creation: int, creation5m: int, creation1h: int, matched: int, eligible: int,
    reservation: Option<Reservation>)

  const SKIPPED := Lookup(0, 0, 0, 0, 0, 0, None)

  function EffectiveTTL(maxTTL: int, requested: int): int {
    var r := if requested <= 0 then DEFAULT_TTL else requested;
    if 0 < maxTTL < r then maxTTL else r
  }

  function Touched(e: Entry, maxTTL: int, now: int): Entry {
    var ttl := EffectiveTTL(maxTTL, e.ttl);
    Entry(now + ttl, ttl, now)
  }

  /** math.Round on a non-negative real. */
  function Round(x: real): int {
    (x + 0.5).Floor
  }

  /** The scope after a hit: the entry refreshed, its reservation dropped. */
  function AfterMatch(p: Profile, s: Scope, i: int, maxTTL: int, now: int): Scope
    requires -1 <= i < |p.breakpoints|
  {
    if i < 0 || p.breakpoints[i].fingerprint !in s.entries then s else
      var f := p.breakpoints[i].fingerprint;
      Scope(s.entries[f := Touched(s.entries[f], maxTTL, now)], s.pending - {f})
  }

  /** The last large-enough breakpoint after position i, or -1: what a lookup would create next. */
  function NewestMissing(p: Profile, minTokens: int, i: int, n: nat): (r: int)
    requires -1 <= i < |p.breakpoints| && n <= |p.breakpoints|
    ensures r == -1 || i < r < n
  {
    if n == 0 || n - 1 <= i then -1
    else if LargeEnough(p.breakpoints[n - 1], p.totalInputTokens, minTokens) then n - 1
    else NewestMissing(p, minTokens, i, n - 1)
  }

  /** Something is left to create and nobody else is creating it. */
  predicate Reserves(p: Profile, pending: map<Fingerprint, Pending>, matched: int, last: int, missing: int)
    requires -1 <= missing < |p.breakpoints|
  {
    matched < last && missing >= 0 && p.breakpoints[missing].fingerprint !in pending
  }

  predicate InFlight(p: Profile, pending: map<Fingerprint, Pending>, matched: int, last: int, missing: int)
    requires -1 <= missing < |p.breakpoints|
  {
    matched < last && missing >= 0 && p.breakpoints[missing].fingerprint in pending
  }

  function Answer(p: Profile, pending: map<Fingerprint, Pending>, counter: nat, matched: int, last: int, missing: int,
      efficiency: real): Lookup
    requires -1 <= missing < |p.breakpoints|
  {
    var split := Breakdown(p.breakpoints, p.totalInputTokens, matched);
    var inFlight := InFlight(p, pending, matched, last, missing);
    Lookup(
      Min(Round(matched as real * efficiency), last),
      if inFlight then 0 else Max(last - matched, 0), if inFlight then 0 else split.0, if inFlight then 0 else split.1,
      matched, last,
      if Reserves(p, pending, matched, last, missing)
      then Some(Reservation(p.breakpoints[missing].fingerprint, counter + 1)) else None)
  }

  function AfterReserve(p: Profile, s: Scope, counter: nat, matched: int, last: int, missing: int, now: int): (Scope,
      nat)
    requires -1 <= missing < |p.breakpoints|
  {
    if Reserves(p, s.pending, matched, last, missing)
    then (s.(pending := s.pending[p.breakpoints[missing].fingerprint := Pending(now + RESERVATION_TTL, counter + 1)]),
        counter + 1)
    else (s, counter)
  }

  /** A lookup: its answer, the new scope and the new reservation counter. */
  function Compute(p: Profile, s0: Scope, counter: nat, minTokens: int, maxTTL: int, efficiency: real,
      now: int): (Lookup, Scope, nat) {
    var last := LastTokens(p.breakpoints, p.totalInputTokens);
    var s := Pruned(s0, now);
    if last < minTokens then (SKIPPED.(eligible := last), s, counter) else
      var i := LastMatch(p, s.entries, minTokens, |p.breakpoints|);
      var t := AfterMatch(p, s, i, maxTTL, now);
      var missing := NewestMissing(p, minTokens, i, |p.breakpoints|);
      var after := AfterReserve(p, t, counter, MatchedTokens(p, i), last, missing, now);
      (Answer(p, t.pending, counter, MatchedTokens(p, i), last, missing, efficiency), after.0, after.1)
  }

  predicate NearestShare(read: int, whole: int, efficiency: real) {
    -0.5 <= read as real - whole as real * efficiency <= 0.5
  }

  lemma {:induction false} RoundAtMost(n: nat, efficiency: real)
    requires 0.0 <= efficiency <= 1.0
    ensures 0 <= Round(n as real * efficiency) <= n
    ensures NearestShare(Round(n as real * efficiency), n, efficiency)
  {
    assert 0.0 <= n as real * efficiency <= n as real;
    assert n as real * efficiency + 0.5 < (n + 1) as real;
  }

  lemma {:induction false} MissingIsLast(p: Profile, minTokens: int, i: int)
    requires Built(p) && -1 <= i < |p.breakpoints| - 1
    requires LastTokens(p.breakpoints, p.totalInputTokens) >= minTokens
    ensures NewestMissing(p, minTokens, i, |p.breakpoints|) == |p.breakpoints| - 1
  {
    assert p.breakpoints[..|p.breakpoints|] == p.breakpoints;
    LastTokensOfBuilt(p, |p.breakpoints|);
  }

  /** The entries of a scope that have not expired. */
  function LiveEntries(s: Scope, now: int): map<Fingerprint, Entry> {
    map f | f in s.entries && now < s.entries[f].expiresAt :: s.entries[f]
  }

  /**
   * A lookup agrees with its specification: the match is the longest stored live prefix, the read is the share of it
   * that the efficiency gives, to the nearest token, and what is created is exactly the rest, split by lifetime - or
   * nothing, while another holder is creating the last breakpoint.
   */
  lemma {:induction false} LookupAgrees(p: Profile, s: Scope, counter: nat, minTokens: int, maxTTL: int,
      efficiency: real, now: int)
    requires Built(p) && 0.0 <= efficiency <= 1.0
    requires p.breakpoints[|p.breakpoints| - 1].tokens >= minTokens
    ensures var (a, s', c') := Compute(p, s, counter, minTokens, maxTTL, efficiency, now);
      var f := p.breakpoints[|p.breakpoints| - 1].fingerprint;
      var creating := f in s.pending && now < s.pending[f].expiresAt;
      && LongestStored(p, LiveEntries(s, now), minTokens, a.matched)
      && 0 <= a.read <= a.matched <= a.eligible == p.breakpoints[|p.breakpoints| - 1].tokens
      && NearestShare(a.read, a.matched, efficiency)
      && a.creation == a.creation5m + a.creation1h
      && a.creation == (if creating then 0 else a.eligible - a.matched)
      && (a.creation > 0 ==> (a.creation5m, a.creation1h) == Breakdown(p.breakpoints, p.totalInputTokens, a.matched))
      && (a.reservation.Some? <==> a.matched < a.eligible && !creating)
      && (a.reservation.Some? ==>
            a.reservation.value == Reservation(f, counter + 1)
            && f in s'.pending && s'.pending[f] == Pending(now + 600_000, counter + 1))
  {
    var n := |p.breakpoints|;
    var t := Pruned(s, now);
    var i := LastMatch(p, t.entries, minTokens, n);
    assert t.entries == LiveEntries(s, now);
    BoundedOfBuilt(p, n - 1);
    ScanFindsLongest(p, t.entries, minTokens);
    MatchedInRange(p, i);
    var u := AfterMatch(p, t, i, maxTTL, now);
    var missing := NewestMissing(p, minTokens, i, n);
    LookupClaims(p, s, minTokens, maxTTL, now);
    AnswerAgrees(p, u, counter, MatchedTokens(p, i), p.breakpoints[n - 1].tokens, missing, efficiency, now);
  }

  /** A lookup that leaves something to create would create the last breakpoint, unless somebody is at it. */
  lemma {:induction false} LookupClaims(p: Profile, s: Scope, minTokens: int, maxTTL: int, now: int)
    requires Built(p) && p.breakpoints[|p.breakpoints| - 1].tokens >= minTokens
    ensures var n := |p.breakpoints|; var f := p.breakpoints[n - 1].fingerprint;
      var t := Pruned(s, now);
      var i := LastMatch(p, t.entries, minTokens, n);
      i < n - 1 ==>
        && NewestMissing(p, minTokens, i, n) == n - 1
        && (f in AfterMatch(p, t, i, maxTTL, now).pending <==> f in s.pending && now < s.pending[f].expiresAt)
  {
    var n := |p.breakpoints|;
    var t := Pruned(s, now);
    var i := LastMatch(p, t.entries, minTokens, n);
    BoundedOfBuilt(p, n - 1);
    MatchIsLastStored(p, t.entries, minTokens, n);
    if i < n - 1 {
      MissingIsLast(p, minTokens, i);
      assert !Stored(p, t.entries, minTokens, n - 1);
    }
  }

  lemma {:induction false} AnswerAgrees(
    p: Profile, s: Scope, counter: nat, matched: int, last: int, missing: int, efficiency: real, now: int)
    requires -1 <= missing < |p.breakpoints| && 0.0 <= efficiency <= 1.0
    requires 0 <= matched <= last == LastTokens(p.breakpoints, p.totalInputTokens)
    ensures var a := Answer(p, s.pending, counter, matched, last, missing, efficiency);
      && a.matched == matched && a.eligible == last && 0 <= a.read <= matched
      && NearestShare(a.read, matched, efficiency)
      && (a.creation > 0 ==> (a.creation5m, a.creation1h) == Breakdown(p.breakpoints, p.totalInputTokens, matched))
      && a.creation == a.creation5m + a.creation1h
      && a.creation == (if InFlight(p, s.pending, matched, last, missing) then 0 else last - matched)
      && (a.reservation.Some? <==> Reserves(p, s.pending, matched, last, missing))
      && (a.reservation.Some? ==>
            var f := p.breakpoints[missing].fingerprint;
            var s' := AfterReserve(p, s, counter, matched, last, missing, now).0;
            a.reservation.value == Reservation(f, counter + 1)
            && f in s'.pending && s'.pending[f] == Pending(now + RESERVATION_TTL, counter + 1))
  {
    RoundAtMost(matched, efficiency);
    BreakdownCovers(p.breakpoints, p.totalInputTokens, matched);
  }

  lemma {:induction false} MatchedInRange(p: Profile, i: int)
    requires Built(p) && -1 <= i < |p.breakpoints|
    ensures var last := p.breakpoints[|p.breakpoints| - 1].tokens;
      0 <= MatchedTokens(p, i) <= last && (MatchedTokens(p, i) == last <==> i == |p.breakpoints| - 1)
  {
    if i >= 0 {
      BoundedOfBuilt(p, i);
    }
  }

  // -------------------------------------------------------------- reservations

  datatype Cache = Cache(scope: Scope, counter: nat)

  datatype Op =
    | LookUp(profile: Profile, minTokens: int, maxTTL: int, efficiency: real, now: int)
    | Store(profile: Profile, minTokens: int, maxTTL: int, now: int)
    | ReleaseReservation(reservation: Reservation)
    | PruneExpired(now: int)
    | Evict(fingerprint: Fingerprint)
    | Clear
    | ElsewhereReserved

  /** Storing keeps the breakpoints that fit the total and are large enough. */
  predicate Storable(p: Profile, minTokens: int, b: Breakpoint) {
    !(p.totalInputTokens > 0 && b.tokens > p.totalInputTokens) && Bounded(b, p.totalInputTokens) >= minTokens
  }

  function StoreFirst(p: Profile, s: Scope, minTokens: int, maxTTL: int, now: int, n: nat): Scope
    requires n <= |p.breakpoints|
  {
    if n == 0 then s else
      var t := StoreFirst(p, s, minTokens, maxTTL, now, n - 1);
      var b := p.breakpoints[n - 1];
      if Storable(p, minTokens, b) then
        var ttl := EffectiveTTL(maxTTL, b.ttl);
        Scope(t.entries[b.fingerprint := Entry(now + ttl, ttl, now)], t.pending - {b.fingerprint})
      else t
  }

  function Released(s: Scope, r: Reservation): Scope {
    if r.fingerprint in s.pending && s.pending[r.fingerprint].token == r.token
    then s.(pending := s.pending - {r.fingerprint}) else s
  }

  function Apply(c: Cache, op: Op): Cache {
    match op
    case LookUp(p, minTokens, maxTTL, e, now) =>
      var (_, s, n) := Compute(p, c.scope, c.counter, minTokens, maxTTL, e, now); Cache(s, n)
    case Store(p, minTokens, maxTTL, now) =>
      c.(scope := StoreFirst(p, Pruned(c.scope, now), minTokens, maxTTL, now, |p.breakpoints|))
    case ReleaseReservation(r) => c.(scope := Released(c.scope, r))
    case PruneExpired(now) => c.(scope := Pruned(c.scope, now))
    case Evict(f) => c.(scope := c.scope.(entries := c.scope.entries - {f}))
    case Clear => c.(scope := Scope(map[], map[]))
    case ElsewhereReserved => c.(counter := c.counter + 1)
  }

  function ReservedBy(c: Cache, op: Op): Option<Reservation> {
    match op
    case LookUp(p, minTokens, maxTTL, e, now) => Compute(p, c.scope, c.counter, minTokens, maxTTL, e, now).0.reservation
    case _ => None
  }

  /** The lookup's match, as an index of its profile. */
  function HitIndex(c: Cache, op: Op): int
    requires op.LookUp?
  {
    if LastTokens(op.profile.breakpoints, op.profile.totalInputTokens) < op.minTokens then -1
    else LastMatch(op.profile, Pruned(c.scope, op.now).entries, op.minTokens, |op.profile.breakpoints|)
  }

  /** The operation ends reservation r: store, hit, matching release, expiry or clear. */
  predicate Ends(c: Cache, op: Op, r: Reservation, expiresAt: int) {
    match op
    case LookUp(p, _, _, _, now) =>
      now >= expiresAt || (HitIndex(c, op) >= 0 && p.breakpoints[HitIndex(c, op)].fingerprint == r.fingerprint)
    case Store(p, minTokens, _, now) =>
      now >= expiresAt
      || exists i :: 0 <= i < |p.breakpoints| && p.breakpoints[i].fingerprint == r.fingerprint && Storable(p,
          minTokens, p.breakpoints[i])
    case ReleaseReservation(q) => q == r
    case PruneExpired(now) => now >= expiresAt
    case Evict(_) => false
    case Clear => true
    case ElsewhereReserved => false
  }

  predicate Holds(c: Cache, r: Reservation, expiresAt: int) {
    r.fingerprint in c.scope.pending && c.scope.pending[r.fingerprint] == Pending(expiresAt, r.token)
  }

  lemma {:induction false} StoreKeepsPending(p: Profile, s: Scope, minTokens: int, maxTTL: int, now: int, n: nat,
      f: Fingerprint)
    requires n <= |p.breakpoints| && f in s.pending
    requires forall i :: 0 <= i < n && p.breakpoints[i].fingerprint == f ==> !Storable(p, minTokens, p.breakpoints[i])
    ensures var t := StoreFirst(p, s, minTokens, maxTTL, now, n); f in t.pending && t.pending[f] == s.pending[f]
  {
    if n > 0 {
      StoreKeepsPending(p, s, minTokens, maxTTL, now, n - 1, f);
    }
  }

  /** A live reservation survives every operation that does not end it, and blocks reserving its fingerprint again. */
  lemma {:induction false} ReservationHolds(c: Cache, op: Op, r: Reservation, expiresAt: int)
    requires Holds(c, r, expiresAt) && !Ends(c, op, r, expiresAt)
    ensures Holds(Apply(c, op), r, expiresAt)
    ensures ReservedBy(c, op).Some? ==> ReservedBy(c, op).value.fingerprint != r.fingerprint
  {
    if op.Store? {
      StoreKeepsPending(op.profile, Pruned(c.scope, op.now), op.minTokens, op.maxTTL, op.now, |op.profile.breakpoints|,
          r.fingerprint);
    }
  }

  ghost predicate IsRun(cs: seq<Cache>, ops: seq<Op>) {
    && |cs| == |ops| + 1
    && cs[0] == Cache(Scope(map[], map[]), cs[0].counter)
    && forall i :: 0 <= i < |ops| ==> cs[i + 1] == Apply(cs[i], ops[i])
  }

  lemma {:induction false} ReservationHoldsUntil(cs: seq<Cache>, ops: seq<Op>, i: nat, j: nat, r: Reservation,
      expiresAt: int)
    requires IsRun(cs, ops) && i < j < |cs|
    requires Holds(cs[i + 1], r, expiresAt)
    requires forall m :: i < m < j ==> !Ends(cs[m], ops[m], r, expiresAt)
    ensures Holds(cs[j], r, expiresAt)
  {
    if j > i + 1 {
      ReservationHoldsUntil(cs, ops, i, j - 1, r, expiresAt);
      ReservationHolds(cs[j - 1], ops[j - 1], r, expiresAt);
    }
  }

  /** Whoever reserves a fingerprint again does so only after something ended the earlier reservation. */
  lemma {:induction false} ReReservedOnlyAfterEnd(cs: seq<Cache>, ops: seq<Op>, i: nat, j: nat)
    requires IsRun(cs, ops) && i < j < |ops|
    requires ReservedBy(cs[i], ops[i]).Some? && ReservedBy(cs[j], ops[j]).Some?
    requires ReservedBy(cs[i], ops[i]).value.fingerprint == ReservedBy(cs[j], ops[j]).value.fingerprint
    ensures exists m :: i < m <= j && Ends(cs[m], ops[m], ReservedBy(cs[i], ops[i]).value, ops[i].now + RESERVATION_TTL)
  {
    var r, expiresAt := ReservedBy(cs[i], ops[i]).value, ops[i].now + RESERVATION_TTL;
    assert Holds(cs[i + 1], r, expiresAt);
    if forall m :: i < m <= j ==> !Ends(cs[m], ops[m], r, expiresAt) {
      ReservationHoldsUntil(cs, ops, i, j, r, expiresAt);
      ReservationHolds(cs[j], ops[j], r, expiresAt);
      assert false;
    }
  }

  lemma {:induction false} CounterGrows(cs: seq<Cache>, ops: seq<Op>, i: nat, j: nat)
    requires IsRun(cs, ops) && i <= j < |cs|
    ensures cs[i].counter <= cs[j].counter
  {
    if i < j {
      CounterGrows(cs, ops, i, j - 1);
    }
  }

  /** A late release of an older reservation never frees a newer one of the same fingerprint. */
  lemma {:induction false} StaleReleaseIsHarmless(cs: seq<Cache>, ops: seq<Op>, i: nat, j: nat, k: nat, expiresAt: int)
    requires IsRun(cs, ops) && i < j < |ops| && j < k < |cs|
    requires ReservedBy(cs[i], ops[i]).Some? && ReservedBy(cs[j], ops[j]).Some?
    requires Holds(cs[k], ReservedBy(cs[j], ops[j]).value, expiresAt)
    ensures Holds(Apply(cs[k], ReleaseReservation(ReservedBy(cs[i], ops[i]).value)), ReservedBy(cs[j], ops[j]).value,
        expiresAt)
  {
    CounterGrows(cs, ops, i + 1, j);
  }

  /** A lookup that misses the last breakpoint reserves it, unless it is reserved already. */
  lemma {:induction false} MissReserves(c: Cache, op: Op)
    requires op.LookUp? && Built(op.profile) && 0.0 <= op.efficiency <= 1.0
    requires var b := op.profile.breakpoints[|op.profile.breakpoints| - 1];
      b.tokens >= op.minTokens && b.fingerprint !in LiveEntries(c.scope, op.now)
    ensures var f := op.profile.breakpoints[|op.profile.breakpoints| - 1].fingerprint;
      ReservedBy(c, op) == if f in c.scope.pending && op.now < c.scope.pending[f].expiresAt then None
                           else Some(Reservation(f, c.counter + 1))
  {
    var p, n := op.profile, |op.profile.breakpoints|;
    LookupAgrees(p, c.scope, c.counter, op.minTokens, op.maxTTL, op.efficiency, op.now);
    forall k: nat | k < n && Stored(p, LiveEntries(c.scope, op.now), op.minTokens, k)
      ensures Bounded(p.breakpoints[k], p.totalInputTokens) < p.breakpoints[n - 1].tokens
    {
      BoundedOfBuilt(p, k);
    }
  }

  /** A release frees exactly its own reservation, so the next lookup that misses the prefix reserves it again. */
  lemma {:induction false} ReleasedIsReservable(c: Cache, r: Reservation, expiresAt: int, op: Op)
    requires Holds(c, r, expiresAt) && op.LookUp? && Built(op.profile) && 0.0 <= op.efficiency <= 1.0
    requires var b := op.profile.breakpoints[|op.profile.breakpoints| - 1];
      b.fingerprint == r.fingerprint && b.tokens >= op.minTokens && b.fingerprint !in LiveEntries(c.scope, op.now)
    ensures var after := Apply(c, ReleaseReservation(r));
      && after.scope == Scope(c.scope.entries, c.scope.pending - {r.fingerprint})
      && ReservedBy(after, op) == Some(Reservation(r.fingerprint, c.counter + 1))
      && (op.now < expiresAt ==> ReservedBy(c, op).None?)
  {
    MissReserves(c, op);
    MissReserves(Apply(c, ReleaseReservation(r)), op);
  }

  // ------------------------------------------------------- what a store brings back

  /** The lifetime an entry gets: five minutes unless asked for, at most the configured maximum. */
  function Lifetime(maxTTL: int, requested: int): int {
    var asked := if requested > 0 then requested else 300_000;
    if maxTTL > 0 then Min(asked, maxTTL) else asked
  }

  /** A breakpoint worth an entry: within the total and not below the minimum. */
  predicate Worthy(p: Profile, minTokens: int, i: nat)
    requires i < |p.breakpoints|
  {
    var tokens := p.breakpoints[i].tokens;
    (p.totalInputTokens <= 0 || tokens <= p.totalInputTokens) && Max(tokens, 0) >= minTokens
  }

  /** The last worthy breakpoint of the first n with this fingerprint is i. */
  predicate LastWorthy(p: Profile, minTokens: int, f: Fingerprint, n: nat, i: nat) {
    && i < n <= |p.breakpoints| && p.breakpoints[i].fingerprint == f && Worthy(p, minTokens, i)
    && forall k :: i < k < n && p.breakpoints[k].fingerprint == f ==> !Worthy(p, minTokens, k)
  }

  predicate NoneWorthy(p: Profile, minTokens: int, f: Fingerprint, n: nat) {
    n <= |p.breakpoints| && forall k :: 0 <= k < n && p.breakpoints[k].fingerprint == f ==> !Worthy(p, minTokens, k)
  }

  lemma {:induction false} StoreWrites(p: Profile, s: Scope, minTokens: int, maxTTL: int, now: int, n: nat,
      f: Fingerprint, i: nat)
    requires LastWorthy(p, minTokens, f, n, i)
    ensures var t := StoreFirst(p, s, minTokens, maxTTL, now, n); var d := Lifetime(maxTTL, p.breakpoints[i].ttl);
      f in t.entries && t.entries[f] == Entry(now + d, d, now) && f !in t.pending
  {
    assert Storable(p, minTokens, p.breakpoints[n - 1]) <==> Worthy(p, minTokens, n - 1);
    if i < n - 1 {
      StoreWrites(p, s, minTokens, maxTTL, now, n - 1, f, i);
    }
  }

  lemma {:induction false} StoreSpares(p: Profile, s: Scope, minTokens: int, maxTTL: int, now: int, n: nat,
      f: Fingerprint)
    requires NoneWorthy(p, minTokens, f, n)
    ensures var t := StoreFirst(p, s, minTokens, maxTTL, now, n);
      && (f in t.entries <==> f in s.entries) && (f in t.entries ==> t.entries[f] == s.entries[f])
      && (f in t.pending <==> f in s.pending) && (f in t.pending ==> t.pending[f] == s.pending[f])
  {
    if n > 0 {
      assert Storable(p, minTokens, p.breakpoints[n - 1]) <==> Worthy(p, minTokens, n - 1);
      StoreSpares(p, s, minTokens, maxTTL, now, n - 1, f);
    }
  }

  /**
   * What a store leaves under each fingerprint: a fresh entry with the lifetime of the last worthy breakpoint that
   * has it, and no reservation; where there is none, the entry and the reservation it had, unless they expired.
   */
  lemma {:induction false} StoreIsExact(c: Cache, op: Op, f: Fingerprint)
    requires op.Store?
    ensures var p, s, t := op.profile, c.scope, Apply(c, op).scope; var n := |p.breakpoints|;
      && (forall i: nat :: LastWorthy(p, op.minTokens, f, n, i) ==>
            var d := Lifetime(op.maxTTL, p.breakpoints[i].ttl);
            f in t.entries && t.entries[f] == Entry(op.now + d, d, op.now) && f !in t.pending)
      && (NoneWorthy(p, op.minTokens, f, n) ==>
            && (f in t.entries <==> f in s.entries && op.now < s.entries[f].expiresAt)
            && (f in t.entries ==> t.entries[f] == s.entries[f])
            && (f in t.pending <==> f in s.pending && op.now < s.pending[f].expiresAt)
            && (f in t.pending ==> t.pending[f] == s.pending[f]))
  {
    var p, s := op.profile, Pruned(c.scope, op.now);
    var n := |p.breakpoints|;
    forall i: nat | LastWorthy(p, op.minTokens, f, n, i)
      ensures var t := Apply(c, op).scope; var d := Lifetime(op.maxTTL, p.breakpoints[i].ttl);
        f in t.entries && t.entries[f] == Entry(op.now + d, d, op.now) && f !in t.pending
    {
      StoreWrites(p, s, op.minTokens, op.maxTTL, op.now, n, f, i);
    }
    if NoneWorthy(p, op.minTokens, f, n) {
      StoreSpares(p, s, op.minTokens, op.maxTTL, op.now, n, f);
    }
  }

  /** The longest large-enough breakpoint that is live is k. */
  predicate LongestLive(p: Profile, entries: map<Fingerprint, Entry>, minTokens: int, k: nat) {
    && k < |p.breakpoints| && p.breakpoints[k].tokens >= minTokens && p.breakpoints[k].fingerprint in entries
    && forall m :: k < m < |p.breakpoints| && p.breakpoints[m].tokens >= minTokens ==>
         p.breakpoints[m].fingerprint !in entries
  }

  /** A hit gives the matched entry a full lifetime and spares all others; a miss only drops expired entries. */
  lemma {:induction false} LookupTouchesMatch(c: Cache, op: Op)
    requires op.LookUp? && Built(op.profile)
    ensures var p, live, after := op.profile, LiveEntries(c.scope, op.now), Apply(c, op).scope.entries;
      var worth := p.breakpoints[|p.breakpoints| - 1].tokens >= op.minTokens;
      && (forall k: nat :: worth && LongestLive(p, live, op.minTokens, k) ==>
            var f := p.breakpoints[k].fingerprint;
            var d := Lifetime(op.maxTTL, live[f].ttl);
            after == live[f := Entry(op.now + d, d, op.now)] && f !in Apply(c, op).scope.pending)
      && ((forall k: nat :: !(worth && LongestLive(p, live, op.minTokens, k))) ==> after == live)
  {
    var p, live, n := op.profile, LiveEntries(c.scope, op.now), |op.profile.breakpoints|;
    assert Pruned(c.scope, op.now).entries == live;
    BoundedOfBuilt(p, n - 1);
    forall i: nat | i < n ensures Bounded(p.breakpoints[i], p.totalInputTokens) == p.breakpoints[i].tokens {
      BoundedOfBuilt(p, i);
    }
    MatchIsLastStored(p, live, op.minTokens, n);
    var i := LastMatch(p, live, op.minTokens, n);
    if i >= 0 {
      forall m | i < m < n && p.breakpoints[m].tokens >= op.minTokens ensures p.breakpoints[m].fingerprint !in live {
        assert !Stored(p, live, op.minTokens, m);
      }
      assert LongestLive(p, live, op.minTokens, i);
    }
    forall k: nat | LongestLive(p, live, op.minTokens, k) ensures k == i {
      assert Stored(p, live, op.minTokens, k);
    }
  }

  predicate Kept(c: Cache, f: Fingerprint, e: Entry) {
    f in c.scope.entries && c.scope.entries[f] == e
  }

  /** The operation is over before the deadline and has nothing to do with the fingerprint. */
  predicate LeavesAlone(op: Op, f: Fingerprint, deadline: int) {
    match op
    case LookUp(p, _, _, _, now) => now < deadline && forall i :: 0 <= i < |p.breakpoints| ==>
        p.breakpoints[i].fingerprint != f
    case Store(p, _, _, now) => now < deadline && forall i :: 0 <= i < |p.breakpoints| ==>
        p.breakpoints[i].fingerprint != f
    case ReleaseReservation(_) => true
    case PruneExpired(now) => now < deadline
    case Evict(g) => g != f
    case Clear => false
    case ElsewhereReserved => true
  }

  lemma {:induction false} LeftAloneKept(c: Cache, op: Op, f: Fingerprint, e: Entry)
    requires Kept(c, f, e) && LeavesAlone(op, f, e.expiresAt)
    ensures Kept(Apply(c, op), f, e)
  {
    if op.Store? {
      StoreIsExact(c, op, f);
    }
  }

  lemma {:induction false} KeptUntil(cs: seq<Cache>, ops: seq<Op>, i: nat, j: nat, f: Fingerprint, e: Entry)
    requires IsRun(cs, ops) && i <= j < |cs| && Kept(cs[i], f, e)
    requires forall m :: i <= m < j ==> LeavesAlone(ops[m], f, e.expiresAt)
    ensures Kept(cs[j], f, e)
  {
    if i < j {
      KeptUntil(cs, ops, i, j - 1, f, e);
      LeftAloneKept(cs[j - 1], ops[j - 1], f, e);
    }
  }

  function AnswerOf(c: Cache, op: Op): Lookup
    requires op.LookUp?
  {
    Compute(op.profile, c.scope, c.counter, op.minTokens, op.maxTTL, op.efficiency, op.now).0
  }

  /** Everything eligible is matched, and nothing is created or reserved. */
  predicate FullHit(a: Lookup) {
    a.matched == a.eligible > 0 && a.creation == a.creation5m == a.creation1h == 0 && a.reservation.None?
  }

  /** A lookup of a profile matches all of it exactly while the entry of its last breakpoint lives, and renews it. */
  lemma {:induction false} FullHitIffLive(c: Cache, op: Op, e: Entry)
    requires op.LookUp? && Built(op.profile) && 0.0 <= op.efficiency <= 1.0
    requires var b := op.profile.breakpoints[|op.profile.breakpoints| - 1];
      b.tokens >= op.minTokens && Kept(c, b.fingerprint, e)
    ensures FullHit(AnswerOf(c, op)) <==> op.now < e.expiresAt
    ensures op.now >= e.expiresAt ==> AnswerOf(c, op).matched < AnswerOf(c, op).eligible
    ensures var f := op.profile.breakpoints[|op.profile.breakpoints| - 1].fingerprint;
      var d := Lifetime(op.maxTTL, e.ttl);
      op.now < e.expiresAt ==> Kept(Apply(c, op), f, Entry(op.now + d, d, op.now))
  {
    var p, n := op.profile, |op.profile.breakpoints|;
    var live := LiveEntries(c.scope, op.now);
    LookupAgrees(p, c.scope, c.counter, op.minTokens, op.maxTTL, op.efficiency, op.now);
    BoundedOfBuilt(p, n - 1);
    if op.now < e.expiresAt {
      RenewedWhileLive(c, op, e);
      assert Stored(p, live, op.minTokens, n - 1);
      NothingLeftToCreate(p, c, op);
    } else {
      forall k: nat | k < n && Stored(p, live, op.minTokens, k) ensures k < n - 1
        && Bounded(p.breakpoints[k], p.totalInputTokens) < p.breakpoints[n - 1].tokens
      {
        BoundedOfBuilt(p, k);
      }
    }
  }

  lemma {:induction false} RenewedWhileLive(c: Cache, op: Op, e: Entry)
    requires op.LookUp? && Built(op.profile) && op.now < e.expiresAt
    requires var b := op.profile.breakpoints[|op.profile.breakpoints| - 1];
      b.tokens >= op.minTokens && Kept(c, b.fingerprint, e)
    ensures var f := op.profile.breakpoints[|op.profile.breakpoints| - 1].fingerprint;
      var d := Lifetime(op.maxTTL, e.ttl); Kept(Apply(c, op), f, Entry(op.now + d, d, op.now))
  {
    LookupTouchesMatch(c, op);
    assert LongestLive(op.profile, LiveEntries(c.scope, op.now), op.minTokens, |op.profile.breakpoints| - 1);
  }

  lemma {:induction false} NothingLeftToCreate(p: Profile, c: Cache, op: Op)
    requires op.LookUp? && op.profile == p && Built(p) && 0.0 <= op.efficiency <= 1.0
    requires p.breakpoints[|p.breakpoints| - 1].tokens >= op.minTokens
    requires AnswerOf(c, op).matched == AnswerOf(c, op).eligible
    ensures AnswerOf(c, op).creation == AnswerOf(c, op).creation5m == AnswerOf(c, op).creation1h == 0
  {
    var a := AnswerOf(c, op);
    LookupAgrees(p, c.scope, c.counter, op.minTokens, op.maxTTL, op.efficiency, op.now);
    assert a.creation == 0;
    BoundedOfBuilt(p, |p.breakpoints| - 1);
    BreakdownCovers(p.breakpoints, p.totalInputTokens, a.matched);
  }

  /**
   * The round trip: a stored profile is found whole at every instant before its deadline and not from then on, as long
   * as nothing in between concerned its last fingerprint. The deadline counts from the store or, once it was found,
   * from that lookup.
   */
  lemma {:induction false} StoredIsFound(cs: seq<Cache>, ops: seq<Op>, i: nat, j: nat)
    requires IsRun(cs, ops) && i < j < |ops| && ops[i].Store? && ops[j].LookUp? && ops[i].profile == ops[j].profile
    requires Built(ops[i].profile) && 0.0 <= ops[j].efficiency <= 1.0
    requires var b := ops[i].profile.breakpoints[|ops[i].profile.breakpoints| - 1];
      && b.tokens >= ops[i].minTokens && b.tokens >= ops[j].minTokens
      && forall m :: i < m < j ==> LeavesAlone(ops[m], b.fingerprint, ops[i].now + Lifetime(ops[i].maxTTL, b.ttl))
    ensures var b := ops[i].profile.breakpoints[|ops[i].profile.breakpoints| - 1];
      var d := Lifetime(ops[i].maxTTL, b.ttl);
      && (FullHit(AnswerOf(cs[j], ops[j])) <==> ops[j].now < ops[i].now + d)
      && (ops[j].now >= ops[i].now + d ==> AnswerOf(cs[j], ops[j]).matched < AnswerOf(cs[j], ops[j]).eligible)
  {
    var p := ops[i].profile;
    var b := p.breakpoints[|p.breakpoints| - 1];
    var d := Lifetime(ops[i].maxTTL, b.ttl);
    assert LastWorthy(p, ops[i].minTokens, b.fingerprint, |p.breakpoints|, |p.breakpoints| - 1);
    StoreIsExact(cs[i], ops[i], b.fingerprint);
    var e := Entry(ops[i].now + d, d, ops[i].now);
    KeptUntil(cs, ops, i + 1, j, b.fingerprint, e);
    FullHitIffLive(cs[j], ops[j], e);
  }

  /** The same for a profile that was found: the hit renews its deadline. */
  lemma {:induction false} FoundIsFoundAgain(cs: seq<Cache>, ops: seq<Op>, i: nat, j: nat, e: Entry)
    requires IsRun(cs, ops) && i < j < |ops| && ops[i].LookUp? && ops[j].LookUp? && ops[i].profile == ops[j].profile
    requires Built(ops[i].profile) && 0.0 <= ops[i].efficiency <= 1.0 && 0.0 <= ops[j].efficiency <= 1.0
    requires var b := ops[i].profile.breakpoints[|ops[i].profile.breakpoints| - 1];
      && b.tokens >= ops[i].minTokens && b.tokens >= ops[j].minTokens
      && Kept(cs[i], b.fingerprint, e) && ops[i].now < e.expiresAt
      && forall m :: i < m < j ==> LeavesAlone(ops[m], b.fingerprint, ops[i].now + Lifetime(ops[i].maxTTL, e.ttl))
    ensures var d := Lifetime(ops[i].maxTTL, e.ttl);
      && (FullHit(AnswerOf(cs[j], ops[j])) <==> ops[j].now < ops[i].now + d)
      && (ops[j].now >= ops[i].now + d ==> AnswerOf(cs[j], ops[j]).matched < AnswerOf(cs[j], ops[j]).eligible)
  {
    var p := ops[i].profile;
    var b := p.breakpoints[|p.breakpoints| - 1];
    var d := Lifetime(ops[i].maxTTL, e.ttl);
    FullHitIffLive(cs[i], ops[i], e);
    var renewed := Entry(ops[i].now + d, d, ops[i].now);
    KeptUntil(cs, ops, i + 1, j, b.fingerprint, renewed);
    FullHitIffLive(cs[j], ops[j], renewed);
  }

  // ------------------------------------------------------------------ the object

  class CacheScope {
    var entries: map<Fingerprint, Entry>
    var pending: map<Fingerprint, Pending>
    var reservationSequence: nat

    ghost function View(): Scope
      reads this
    {
      Scope(entries, pending)
    }

    constructor ()
      ensures View() == Scope(map[], map[]) && reservationSequence == 0
    {
      entries, pending, reservationSequence := map[], map[], 0;
    }

    method Prune(now: int)
      modifies this`entries, this`pending
      ensures View() == Pruned(old(View()), now)
    {
      entries := map f | f in entries && entries[f].expiresAt > now :: entries[f];
      pending := map f | f in pending && pending[f].expiresAt > now :: pending[f];
    }

    /** The backward scan: the match and the newest missing breakpoint, as indexes or -1. */
    method Scan(p: Profile, minTokens: int) returns (match_: int, missing: int)
      ensures match_ == LastMatch(p, entries, minTokens, |p.breakpoints|)
      ensures missing == NewestMissing(p, minTokens, match_, |p.breakpoints|)
    {
      match_, missing := -1, -1;
      var i := |p.breakpoints|;
      while i > 0
        invariant 0 <= i <= |p.breakpoints|
        invariant match_ == -1 && (missing == -1 || i <= missing < |p.breakpoints|)
        invariant LastMatch(p, entries, minTokens, i) == LastMatch(p, entries, minTokens, |p.breakpoints|)
        invariant forall k :: -1 <= k < i ==>
          NewestMissing(p, minTokens, k, |p.breakpoints|)
          == if missing >= 0 then missing else NewestMissing(p, minTokens, k, i)
      {
        i := i - 1;
        var b := p.breakpoints[i];
        if !LargeEnough(b, p.totalInputTokens, minTokens) {
          continue;
        }
        if b.fingerprint in entries {
          match_ := i;
          break;
        }
        if missing < 0 {
          missing := i;
        }
      }
    }

    method ComputeDetailed(p: Profile, minTokens: int, maxTTL: int, efficiency: real, now: int) returns (a: Lookup)
      modifies this
      ensures (a, View(), reservationSequence)
              == Compute(p, old(View()), old(reservationSequence), minTokens, maxTTL, efficiency, now)
    {
      var last := 0;
      for i := 0 to |p.breakpoints|
        invariant last == LastTokens(p.breakpoints[..i], p.totalInputTokens)
        invariant View() == old(View()) && reservationSequence == old(reservationSequence)
      {
        assert p.breakpoints[..i + 1][..i] == p.breakpoints[..i];
        var tokens := Bounded(p.breakpoints[i], p.totalInputTokens);
        if tokens > last {
          last := tokens;
        }
      }
      assert p.breakpoints[..|p.breakpoints|] == p.breakpoints;
      Prune(now);
      if last < minTokens {
        return SKIPPED.(eligible := last);
      }
      ghost var s := View();
      var found, missing := Scan(p, minTokens);
      var matched := if found < 0 then 0 else Min(Bounded(p.breakpoints[found], p.totalInputTokens), last);
      assert matched >= 0;
      if found >= 0 {
        var f := p.breakpoints[found].fingerprint;
        if f in entries {
          entries := entries[f := Touched(entries[f], maxTTL, now)];
          pending := pending - {f};
        }
      }
      assert View() == AfterMatch(p, s, found, maxTTL, now);
      assert matched == MatchedTokens(p, found);
      a := Reserve(p, matched, last, missing, efficiency, now);
    }

    /** The tail of a lookup: claims the missing breakpoint if it is free and counts the tokens. */
    method Reserve(p: Profile, matched: int, last: int, missing: int, efficiency: real, now: int) returns (a: Lookup)
      requires -1 <= missing < |p.breakpoints| && matched >= 0
      modifies this`pending, this`reservationSequence
      ensures a == Answer(p, old(pending), old(reservationSequence), matched, last, missing, efficiency)
      ensures (View(), reservationSequence)
              == AfterReserve(p, old(View()), old(reservationSequence), matched, last, missing, now)
    {
      var inFlight := false;
      var reservation: Option<Reservation> := None;
      if matched < last && missing >= 0 {
        var f := p.breakpoints[missing].fingerprint;
        inFlight := f in pending;
        if !inFlight {
          reservationSequence := reservationSequence + 1;
          reservation := Some(Reservation(f, reservationSequence));
          pending := pending[f := Pending(now + RESERVATION_TTL, reservationSequence)];
        }
      }
      var read := Min(Round(matched as real * efficiency), last);
      var creation := Max(last - matched, 0);
      var five, hour := ComputePromptCacheTTLBreakdown(p, matched);
      if inFlight {
        creation, five, hour := 0, 0, 0;
      }
      a := Lookup(read, creation, five, hour, matched, last, reservation);
    }

    method Update(p: Profile, minTokens: int, maxTTL: int, now: int)
      modifies this`entries, this`pending
      ensures View() == StoreFirst(p, Pruned(old(View()), now), minTokens, maxTTL, now, |p.breakpoints|)
    {
      Prune(now);
      for i := 0 to |p.breakpoints|
        invariant View() == StoreFirst(p, Pruned(old(View()), now), minTokens, maxTTL, now, i)
      {
        var b := p.breakpoints[i];
        if p.totalInputTokens > 0 && b.tokens > p.totalInputTokens {
          continue;
        }
        if Bounded(b, p.totalInputTokens) < minTokens {
          continue;
        }
        var ttl := EffectiveTTL(maxTTL, b.ttl);
        entries := entries[b.fingerprint := Entry(now + ttl, ttl, now)];
        pending := pending - {b.fingerprint};
      }
    }

    method Release(r: Reservation)
      modifies this`pending
      ensures View() == Released(old(View()), r)
    {
      if r.fingerprint in pending && pending[r.fingerprint].token == r.token {
        pending := pending - {r.fingerprint};
      }
    }
  }
}
