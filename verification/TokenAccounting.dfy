/**
 * Cache usage as reported to clients: reconciliation, target reads and the accounting modes
 * (proxy/cache_tracker.go).
 */
module TokenAccounting {
  import opened Common
  import TokenUsage
  import PM = PrefixMatch

  datatype Mode = Actual | MatchedPrefix | AggregatorTarget

  datatype CacheUsage = CacheUsage(
    creation: int, read: int, creation5m: int, creation1h: int, totalInput: int,
    localMatched: int, targetRate: real, hasTargetRate: bool, mode: Mode, targetApplied: bool,
    upstreamRead: int, upstreamCreation: int, hasUpstreamBreakdown: bool)

  const NOTHING := CacheUsage(0, 0, 0, 0, 0, 0, 0.0, false, MatchedPrefix, false, 0, 0, false)

  function Add(a: int, b: int): int {
    TokenUsage.SaturatingAdd(a, b)
  }

  /**
   * How part * whole / total is computed. Conservation holds for any such arithmetic, whatever its rounding
   * errors, because every scaled bucket is clamped and its partner is what remains.
   */
  type Scaling = (int, int, int) -> int

  function Quotient(part: int, whole: int, total: int): real
    requires total > 0
  {
    part as real * whole as real / total as real
  }

  /** The exact quotient rounded half away from zero: floats read as reals. */
  function Rounded(part: int, whole: int, total: int): int {
    if total > 0 then PM.Round(Quotient(part, whole, total)) else 0
  }

  /** How a rate is scaled to an input. */
  type Multiplication = (int, real) -> real

  function Times(n: int, rate: real): real {
    n as real * rate
  }

  ghost predicate Exact(scale: Scaling) {
    forall part: int, total: int :: 0 <= part <= total && total > 0 ==> scale(part, total, total) == part
  }

  function Clamp(x: int, lo: int, hi: int): int {
    Min(Max(x, lo), hi)
  }

  /** Scales the two cache buckets down when together they exceed the input. */
  function FitInput(u: CacheUsage, input: int, scale: Scaling): CacheUsage
    requires input > 0
  {
    var creation, read := Max(u.creation, 0), Max(u.read, 0);
    var cached := Add(creation, read);
    if cached > input then
      var scaled := Clamp(scale(creation, input, cached), 0, input);
      u.(creation := scaled, read := input - scaled)
    else u.(creation := creation, read := read)
  }

  /** Scales the two lifetimes to the creation bucket. */
  function FitLifetimes(u: CacheUsage, scale: Scaling): CacheUsage {
    if u.creation <= 0 then u.(creation5m := 0, creation1h := 0) else
      var total := Add(u.creation5m, u.creation1h);
      if total <= 0 then u.(creation5m := u.creation, creation1h := 0) else
        var five := Clamp(scale(Max(u.creation5m, 0), u.creation, total), 0, u.creation);
        u.(creation5m := five, creation1h := u.creation - five)
  }

  function Reconcile(u: CacheUsage, input: int, scale: Scaling): CacheUsage {
    if input <= 0 then NOTHING else FitLifetimes(FitInput(u, input, scale), scale)
  }

  function Billed(input: int, u: CacheUsage): int {
    Max(input - u.creation - u.read, 0)
  }

  /** Non-negative buckets within the input and lifetimes that add up to the creation bucket. */
  predicate Balanced(u: CacheUsage, input: int) {
    && u.creation >= 0 && u.read >= 0 && u.creation + u.read <= input
    && u.creation5m >= 0 && u.creation1h >= 0 && u.creation5m + u.creation1h == u.creation
  }

  predicate InRange(u: CacheUsage) {
    u.creation <= TokenUsage.MAX_INT && u.read <= TokenUsage.MAX_INT
    && u.creation5m <= TokenUsage.MAX_INT && u.creation1h <= TokenUsage.MAX_INT
  }

  /**
   * The saturated sum of the two buckets is exact enough to be compared with the input. Only an input at
   * the ceiling of the integer range together with buckets above it escapes the comparison.
   */
  predicate Comparable(u: CacheUsage, input: int) {
    input < TokenUsage.MAX_INT || Max(u.creation, 0) + Max(u.read, 0) <= TokenUsage.MAX_INT
  }

  lemma {:induction false} FitInputFits(u: CacheUsage, input: int, scale: Scaling)
    requires InRange(u) && 0 < input <= TokenUsage.MAX_INT
    ensures var r := FitInput(u, input, scale);
      && r.creation >= 0 && r.read >= 0
      && (r.creation + r.read <= input <==> Comparable(u, input))
      && (Comparable(u, input) && Max(u.creation, 0) + Max(u.read, 0) >= input ==> r.creation + r.read == input)
      && r == u.(creation := r.creation, read := r.read)
  {
  }

  /** Whatever the estimate, reconciliation balances it against the input; it fails to exactly at the ceiling. */
  lemma {:induction false} ReconcileBalances(u: CacheUsage, input: int, scale: Scaling)
    requires InRange(u) && input <= TokenUsage.MAX_INT
    ensures Balanced(Reconcile(u, input, scale), Max(input, 0)) <==> Comparable(u, input)
    ensures input > 0 && Comparable(u, input) && Max(u.creation, 0) + Max(u.read, 0) >= input ==>
              Reconcile(u, input, scale).creation + Reconcile(u, input, scale).read == input
  {
    if input > 0 {
      FitInputFits(u, input, scale);
    }
  }

  /** The ceiling does escape: saturation hides that the two buckets exceed the input. */
  lemma {:induction false} CeilingEscapes(scale: Scaling) returns (u: CacheUsage)
    ensures InRange(u) && !Balanced(Reconcile(u, TokenUsage.MAX_INT, scale), TokenUsage.MAX_INT)
  {
    u := NOTHING.(creation := TokenUsage.MAX_INT, read := 1);
  }

  lemma {:induction false} RoundedIsExact()
    ensures Exact(Rounded)
  {
    forall part: int, total: int | 0 <= part <= total && total > 0
      ensures Rounded(part, total, total) == part
    {
      assert part as real * total as real / total as real == part as real;
    }
  }

  lemma {:induction false} BalancedIsFixed(u: CacheUsage, input: int, scale: Scaling)
    requires 0 < input <= TokenUsage.MAX_INT && Balanced(u, input) && Exact(scale)
    ensures Reconcile(u, input, scale) == u
  {
    assert FitInput(u, input, scale) == u;
    LifetimesFixed(u, scale);
  }

  lemma {:induction false} LifetimesFixed(u: CacheUsage, scale: Scaling)
    requires 0 <= u.creation <= TokenUsage.MAX_INT && Exact(scale)
    requires u.creation5m >= 0 && u.creation1h >= 0 && u.creation5m + u.creation1h == u.creation
    ensures FitLifetimes(u, scale) == u
  {
    if u.creation > 0 {
      assert scale(u.creation5m, u.creation, u.creation) == u.creation5m;
    }
  }

  lemma {:induction false} FittedLifetimes(u: CacheUsage, scale: Scaling)
    requires u.creation >= 0
    ensures var r := FitLifetimes(u, scale);
      && r.creation5m >= 0 && r.creation1h >= 0 && r.creation5m + r.creation1h == r.creation
      && r == u.(creation5m := r.creation5m, creation1h := r.creation1h)
  {
  }

  /** Reconciling twice is reconciling once, for every arithmetic that is exact on a whole. */
  lemma {:induction false} ReconcileIdempotent(u: CacheUsage, input: int, scale: Scaling)
    requires InRange(u) && input <= TokenUsage.MAX_INT && Exact(scale)
    ensures Reconcile(Reconcile(u, input, scale), input, scale) == Reconcile(u, input, scale)
  {
    if input > 0 {
      FitInputFits(u, input, scale);
      var f := FitInput(u, input, scale);
      FittedLifetimes(f, scale);
      var r := FitLifetimes(f, scale);
      assert r.creation <= TokenUsage.MAX_INT;
      assert FitInput(r, input, scale) == r;
      LifetimesFixed(r, scale);
    }
  }

  /** With the exact quotient rounded, reconciling twice is reconciling once. */
  lemma {:induction false} RoundedReconcileIdempotent(u: CacheUsage, input: int)
    requires InRange(u) && input <= TokenUsage.MAX_INT
    ensures Reconcile(Reconcile(u, input, Rounded), input, Rounded) == Reconcile(u, input, Rounded)
  {
    RoundedIsExact();
    ReconcileIdempotent(u, input, Rounded);
  }

  /** Scaling keeps the creation share: the scaled bucket is the integer nearest to its exact proportion. */
  lemma {:induction false} ScalingIsNearest(u: CacheUsage, input: int)
    requires u.creation >= 0 && u.read >= 0 && 0 < input < u.creation + u.read <= TokenUsage.MAX_INT
    ensures var exact := Quotient(u.creation, input, u.creation + u.read);
      exact - 0.5 < Reconcile(u, input, Rounded).creation as real <= exact + 0.5
  {
    var total := u.creation + u.read;
    var share := Rounded(u.creation, input, total);
    RoundedWithin(u.creation, input, total);
    assert Add(u.creation, u.read) == total;
    assert FitInput(u, input, Rounded).creation == share;
    FittedLifetimes(FitInput(u, input, Rounded), Rounded);
  }

  lemma {:induction false} RoundedWithin(part: int, whole: int, total: int)
    requires 0 <= part <= total && total > 0 && whole >= 0
    ensures var exact := Quotient(part, whole, total);
      && 0 <= Rounded(part, whole, total) <= whole
      && exact - 0.5 < Rounded(part, whole, total) as real <= exact + 0.5
  {
    QuotientWithin(part, whole, total);
    RoundNearest(Quotient(part, whole, total), whole);
  }

  lemma {:induction false} QuotientWithin(part: int, whole: int, total: int)
    requires 0 <= part <= total && total > 0 && whole >= 0
    ensures 0.0 <= Quotient(part, whole, total) <= whole as real
  {
    var p, w, t := part as real, whole as real, total as real;
    Divided(p * w, t);
    SolveQuotient(p, w, t, Quotient(part, whole, total));
  }

  lemma {:induction false} Divided(x: real, t: real)
    requires t > 0.0
    ensures x / t * t == x
  {
  }

  lemma {:induction false} SolveQuotient(p: real, w: real, t: real, q: real)
    requires 0.0 <= p <= t && t > 0.0 && w >= 0.0 && q * t == p * w
    ensures 0.0 <= q <= w
  {
    Product(p, w);
    Product(t - p, w);
    assert (w - q) * t == (t - p) * w;
    Cancelled(q, t);
    Cancelled(w - q, t);
  }

  lemma {:induction false} Product(a: real, b: real)
    requires a >= 0.0 && b >= 0.0
    ensures a * b >= 0.0
  {
  }

  lemma {:induction false} Cancelled(x: real, t: real)
    requires x * t >= 0.0 && t > 0.0
    ensures x >= 0.0
  {
    assert x == x * t / t;
  }

  lemma {:induction false} RoundNearest(x: real, n: int)
    requires 0.0 <= x <= n as real
    ensures 0 <= PM.Round(x) <= n
    ensures x - 0.5 < PM.Round(x) as real <= x + 0.5
  {
  }

  // ------------------------------------------------------------------ target reads

  function ClampReal(v: real, lo: real, hi: real): real {
    if v < lo then lo else if v > hi then hi else v
  }

  function NormalizeRange(lo: real, hi: real): (r: (real, real))
    ensures 0.0 <= r.0 <= r.1 <= 1.0
    ensures 0.0 <= lo <= hi <= 1.0 ==> r == (lo, hi)
    ensures 0.0 <= hi <= lo <= 1.0 ==> r == (hi, lo)
  {
    var a, b := ClampReal(lo, 0.0, 1.0), ClampReal(hi, 0.0, 1.0);
    if a > b then (b, a) else (a, b)
  }

  function Ceil(x: real): int {
    -((-x).Floor)
  }

  /** The integer chosen for an exact wish between two exact bounds. */
  function Aim(input: int, wish: real, least: real, most: real): int {
    var desired := PM.Round(wish);
    var minimum := Clamp(Ceil(least), 0, input);
    var maximum := Clamp(most.Floor, 0, input);
    if minimum <= maximum then Clamp(desired, minimum, maximum) else Clamp(desired, 0, input)
  }

  function TargetRead(input: int, target: real, minRate: real, maxRate: real, times: Multiplication): int {
    if input <= 0 then 0 else
      var (lo, hi) := NormalizeRange(minRate, maxRate);
      Aim(input, times(input, ClampReal(target, lo, hi)), times(input, lo), times(input, hi))
  }

  /** The read lies in the range if that holds an integer, within the input, and within a token of the wish. */
  predicate OnTarget(read: int, input: int, wish: real, least: real, most: real) {
    && 0 <= read <= input
    && (Ceil(least) <= most.Floor ==> Ceil(least) <= read <= most.Floor)
    && -1.0 < read as real - wish < 1.0
  }

  lemma {:induction false} AimWithin(input: int, wish: real, least: real, most: real)
    requires 0.0 <= least <= wish <= most <= input as real
    ensures OnTarget(Aim(input, wish, least, most), input, wish, least, most)
  {
    RoundNearest(wish, input);
  }

  /** What the range result needs of the product: it grows with the rate and stays within the input. */
  ghost predicate Monotone(times: Multiplication) {
    forall n: int, a: real, b: real :: n > 0 && 0.0 <= a <= b <= 1.0 ==> 0.0 <= times(n, a) <= times(n, b) <= n as real
  }

  lemma {:induction false} TimesMonotone()
    ensures Monotone(Times)
  {
    forall n: int, a: real, b: real | n > 0 && 0.0 <= a <= b <= 1.0
      ensures 0.0 <= Times(n, a) <= Times(n, b) <= n as real
    {
      TimesBounds(n, n as real, a, b);
    }
  }

  lemma {:induction false} TimesBounds(n: int, x: real, a: real, b: real)
    requires n > 0 && x == n as real && 0.0 <= a <= b <= 1.0
    ensures 0.0 <= Times(n, a) <= Times(n, b) <= x
  {
    ProductBounds(x, a, b);
    assert Times(n, a) == x * a && Times(n, b) == x * b;
  }

  lemma {:induction false} ProductBounds(n: real, a: real, b: real)
    requires n > 0.0 && 0.0 <= a <= b <= 1.0
    ensures 0.0 <= n * a <= n * b <= n
  {
    Product(n, a);
    Product(n, b - a);
    Product(n, 1.0 - b);
    assert n * (b - a) == n * b - n * a && n * (1.0 - b) == n - n * b;
  }

  /**
   * The target read lies in the configured range whenever that range contains an integer, always lies
   * within the input, and is less than one token away from the requested rate.
   */
  lemma {:induction false} TargetWithinRange(input: int, target: real, minRate: real, maxRate: real,
      times: Multiplication)
    requires input > 0 && Monotone(times)
    ensures var (lo, hi) := NormalizeRange(minRate, maxRate);
      OnTarget(TargetRead(input, target, minRate, maxRate, times), input,
               times(input, ClampReal(target, lo, hi)), times(input, lo), times(input, hi))
  {
    var (lo, hi) := NormalizeRange(minRate, maxRate);
    var rate := ClampReal(target, lo, hi);
    assert 0.0 <= times(input, lo) <= times(input, rate);
    assert times(input, rate) <= times(input, hi) <= input as real;
    AimWithin(input, times(input, rate), times(input, lo), times(input, hi));
  }

  /** The same with the exact product. */
  lemma {:induction false} ExactTargetWithinRange(input: int, target: real, minRate: real, maxRate: real)
    requires input > 0 && 0.0 <= minRate <= maxRate <= 1.0
    ensures OnTarget(TargetRead(input, target, minRate, maxRate, Times), input,
                     Times(input, ClampReal(target, minRate, maxRate)), Times(input, minRate), Times(input, maxRate))
  {
    TimesMonotone();
    TargetWithinRange(input, target, minRate, maxRate, Times);
  }

  // ------------------------------------------------------------- accounting modes

  function UpstreamBaseline(up: TokenUsage.Usage, p: PM.Profile): CacheUsage {
    var b := NOTHING.(creation := up.cacheCreation.value, read := up.cacheRead.value,
                      creation5m := up.creation5m.value, creation1h := up.creation1h.value);
    if b.creation > 0 && Add(b.creation5m, b.creation1h) == 0 then
      var split := PM.Breakdown(p.breakpoints, p.totalInputTokens, 0);
      b.(creation5m := split.0, creation1h := split.1)
    else b
  }

  function ResolvedInput(up: TokenUsage.Usage, input: int): (r: int)
    ensures r >= 0
  {
    if up.input.value > 0 then up.input.value else Max(input, 0)
  }

  /** What is reconciled: the upstream breakdown when there is one, else the local estimate. */
  function Estimate(synthetic: CacheUsage, up: TokenUsage.Usage, p: PM.Profile): CacheUsage {
    if up.hasCacheBreakdown then UpstreamBaseline(up, p) else synthetic
  }

  function TargetRate(synthetic: CacheUsage, minRate: real, maxRate: real): real {
    var (lo, hi) := NormalizeRange(minRate, maxRate);
    ClampReal(if synthetic.hasTargetRate then ClampReal(synthetic.targetRate, lo, hi) else (lo + hi) / 2.0, 0.0, 1.0)
  }

  predicate WarmHit(synthetic: CacheUsage, up: TokenUsage.Usage) {
    synthetic.localMatched > 0 || (up.hasCacheBreakdown && up.cacheRead.value > 0)
  }

  predicate TargetApplies(synthetic: CacheUsage, up: TokenUsage.Usage, input: int, mode: Mode) {
    mode.AggregatorTarget? && WarmHit(synthetic, up) && input > 0
  }

  function AimedAt(baseline: CacheUsage, target: int): CacheUsage {
    baseline.(creation := 0, creation5m := 0, creation1h := 0, read := target)
  }

  function Reported(
    synthetic: CacheUsage, up: TokenUsage.Usage, input: int, p: PM.Profile,
    mode: Mode, minRate: real, maxRate: real, scale: Scaling, times: Multiplication): CacheUsage
  {
    var baseline := Reconcile(Estimate(synthetic, up, p), input, scale);
    if mode.Actual? && !up.hasCacheBreakdown then NOTHING
    else if TargetApplies(synthetic, up, input, mode) then
      var (lo, hi) := NormalizeRange(minRate, maxRate);
      Reconcile(AimedAt(baseline, TargetRead(input, TargetRate(synthetic, minRate, maxRate), lo, hi, times)), input,
          scale)
    else baseline
  }

  /** Resolution against an upstream usage that is already normalised. */
  function ResolveAt(
    synthetic: CacheUsage, up: TokenUsage.Usage, input: int, p: PM.Profile,
    mode: Mode, minRate: real, maxRate: real, scale: Scaling, times: Multiplication): CacheUsage
  {
    var aimed := TargetApplies(synthetic, up, input, mode);
    Reported(synthetic, up, input, p, mode, minRate, maxRate, scale, times).(
       mode := mode, targetApplied := aimed, hasTargetRate := aimed,
       targetRate := if aimed then TargetRate(synthetic, minRate, maxRate) else 0.0,
       localMatched := synthetic.localMatched,
       upstreamRead := Max(up.cacheRead.value, 0), upstreamCreation := Max(up.cacheCreation.value, 0),
       hasUpstreamBreakdown := up.hasCacheBreakdown, totalInput := input)
  }

  /** The usage reported in a mode and the input total it is reported against. */
  function Resolve(
    synthetic: CacheUsage, upstream: TokenUsage.Usage, inputTokens: int, p: PM.Profile,
    mode: Mode, minRate: real, maxRate: real, scale: Scaling, times: Multiplication): (CacheUsage, int)
  {
    var up := TokenUsage.Normalize(upstream);
    var input := ResolvedInput(up, inputTokens);
    (ResolveAt(synthetic, up, input, p, mode, minRate, maxRate, scale, times), input)
  }

  /** Nothing matched locally and the upstream read nothing. */
  predicate Cold(synthetic: CacheUsage, up: TokenUsage.Usage) {
    synthetic.localMatched <= 0 && (!up.hasCacheBreakdown || up.cacheRead.value <= 0)
  }

  /** Every case but an unaimed report whose buckets together pass the ceiling of the integer range. */
  predicate Conserving(synthetic: CacheUsage, up: TokenUsage.Usage, input: int, mode: Mode) {
    || (mode.Actual? && !up.hasCacheBreakdown)
    || (mode.AggregatorTarget? && !Cold(synthetic, up) && input > 0)
    || input < TokenUsage.MAX_INT
    || (if up.hasCacheBreakdown then Max(up.cacheCreation.value, 0) + Max(up.cacheRead.value, 0)
        else Max(synthetic.creation, 0) + Max(synthetic.read, 0)) <= TokenUsage.MAX_INT
  }

  predicate Conserved(u: CacheUsage, input: int) {
    Balanced(u, input) && u.totalInput == input && Billed(input, u) + u.creation + u.read == input
  }

  lemma {:induction false} EstimateInRange(synthetic: CacheUsage, up: TokenUsage.Usage, p: PM.Profile)
    requires InRange(synthetic) && TokenUsage.InRange(up)
    requires PM.LastTokens(p.breakpoints, p.totalInputTokens) <= TokenUsage.MAX_INT
    ensures InRange(Estimate(synthetic, up, p))
  {
    PM.BreakdownCovers(p.breakpoints, p.totalInputTokens, 0);
  }

  lemma {:induction false} AimedBalances(baseline: CacheUsage, input: int, target: real, lo: real, hi: real,
      scale: Scaling, times: Multiplication)
    requires Monotone(times) && 0 < input <= TokenUsage.MAX_INT && 0.0 <= lo <= hi <= 1.0
    ensures var aimed := AimedAt(baseline, TargetRead(input, target, lo, hi, times));
      Reconcile(aimed, input, scale) == aimed && Balanced(aimed, input)
  {
    var aimed := AimedAt(baseline, TargetRead(input, target, lo, hi, times));
    TargetWithinRange(input, target, lo, hi, times);
    assert FitInput(aimed, input, scale) == aimed;
  }

  lemma {:induction false} ReportedWhenAimed(
    synthetic: CacheUsage, up: TokenUsage.Usage, input: int, p: PM.Profile, mode: Mode, minRate: real, maxRate: real,
    scale: Scaling, times: Multiplication, baseline: CacheUsage)
    requires Monotone(times) && 0 < input <= TokenUsage.MAX_INT && TargetApplies(synthetic, up, input, mode)
    requires baseline == Reconcile(Estimate(synthetic, up, p), input, scale)
    ensures var (lo, hi) := NormalizeRange(minRate, maxRate);
      var aimed := AimedAt(baseline, TargetRead(input, TargetRate(synthetic, minRate, maxRate), lo, hi, times));
      && Reported(synthetic, up, input, p, mode, minRate, maxRate, scale, times) == aimed
      && Balanced(aimed, input)
  {
    var (lo, hi) := NormalizeRange(minRate, maxRate);
    AimedBalances(baseline, input, TargetRate(synthetic, minRate, maxRate), lo, hi, scale, times);
  }

  lemma {:induction false} ReportedUnaimed(
    synthetic: CacheUsage, up: TokenUsage.Usage, input: int, p: PM.Profile, mode: Mode, minRate: real, maxRate: real,
    scale: Scaling, times: Multiplication)
    requires !TargetApplies(synthetic, up, input, mode)
    ensures Reported(synthetic, up, input, p, mode, minRate, maxRate, scale, times)
         == if mode.Actual? && !up.hasCacheBreakdown then NOTHING
             else Reconcile(Estimate(synthetic, up, p), input, scale)
  {
  }

  lemma {:induction false} ReportedBalances(
    synthetic: CacheUsage, up: TokenUsage.Usage, input: int, p: PM.Profile, mode: Mode, minRate: real, maxRate: real,
    scale: Scaling, times: Multiplication)
    requires Monotone(times) && InRange(synthetic) && TokenUsage.InRange(up) && 0 <= input <= TokenUsage.MAX_INT
    requires PM.LastTokens(p.breakpoints, p.totalInputTokens) <= TokenUsage.MAX_INT
    ensures Balanced(Reported(synthetic, up, input, p, mode, minRate, maxRate, scale, times), input)
        <==> Conserving(synthetic, up, input, mode)
  {
    var estimate := Estimate(synthetic, up, p);
    if TargetApplies(synthetic, up, input, mode) {
      ReportedWhenAimed(synthetic, up, input, p, mode, minRate, maxRate, scale, times,
          Reconcile(estimate, input, scale));
    } else {
      ReportedUnaimed(synthetic, up, input, p, mode, minRate, maxRate, scale, times);
      EstimateInRange(synthetic, up, p);
      ReconcileBalances(estimate, input, scale);
    }
  }

  lemma {:induction false} ConservedAt(
    synthetic: CacheUsage, up: TokenUsage.Usage, input: int, p: PM.Profile, mode: Mode, minRate: real, maxRate: real,
    scale: Scaling, times: Multiplication)
    requires Monotone(times) && InRange(synthetic) && TokenUsage.InRange(up) && 0 <= input <= TokenUsage.MAX_INT
    requires PM.LastTokens(p.breakpoints, p.totalInputTokens) <= TokenUsage.MAX_INT
    ensures Conserved(ResolveAt(synthetic, up, input, p, mode, minRate, maxRate, scale, times), input)
        <==> Conserving(synthetic, up, input, mode)
  {
    ReportedBalances(synthetic, up, input, p, mode, minRate, maxRate, scale, times);
  }

  /**
   * Token conservation: in every accounting mode the reported buckets are balanced, so they and the billed
   * input add up to the resolved total. The one exception is a total at the ceiling of the integer range.
   */
  lemma {:induction false} EveryModeConserves(
    synthetic: CacheUsage, upstream: TokenUsage.Usage, inputTokens: int, p: PM.Profile, mode: Mode, minRate: real,
        maxRate: real,
    scale: Scaling, times: Multiplication)
    requires Monotone(times) && InRange(synthetic) && TokenUsage.InRange(upstream) && inputTokens <= TokenUsage.MAX_INT
    requires PM.LastTokens(p.breakpoints, p.totalInputTokens) <= TokenUsage.MAX_INT
    ensures var (u, input) := Resolve(synthetic, upstream, inputTokens, p, mode, minRate, maxRate, scale, times);
      var up := TokenUsage.Normalize(upstream);
      && (Conserved(u, input) <==> Conserving(synthetic, up, input, mode))
      && u.mode == mode && u.localMatched == synthetic.localMatched && u.hasUpstreamBreakdown == up.hasCacheBreakdown
      && u.upstreamRead == up.cacheRead.value && u.upstreamCreation == up.cacheCreation.value
  {
    TokenUsage.NormalizeConsistent(upstream);
    var up := TokenUsage.Normalize(upstream);
    ConservedAt(synthetic, up, ResolvedInput(up, inputTokens), p, mode, minRate, maxRate, scale, times);
  }

  // ---------------------------------------------------------- whose numbers are reported

  /** The upstream total where there is one, else the caller's. */
  predicate InputResolved(up: TokenUsage.Usage, inputTokens: int, input: int) {
    if up.input.value > 0 then input == up.input.value else input == Max(inputTokens, 0)
  }

  predicate Untargeted(synthetic: CacheUsage, up: TokenUsage.Usage, mode: Mode) {
    mode.Actual? || mode.MatchedPrefix? || Cold(synthetic, up)
  }

  predicate SameBuckets(u: CacheUsage, creation: int, read: int, five: int, hour: int) {
    u.creation == creation && u.read == read && u.creation5m == five && u.creation1h == hour
  }

  lemma {:induction false} SettledFits(up: TokenUsage.Usage)
    requires TokenUsage.Consistent(up) && up.hasCacheBreakdown
    requires up.cacheRead.value + up.cacheCreation.value <= TokenUsage.MAX_INT
    ensures up.cacheRead.value + up.cacheCreation.value <= up.input.value
  {
  }

  lemma {:induction false} UntargetedReport(
    synthetic: CacheUsage, upstream: TokenUsage.Usage, inputTokens: int, p: PM.Profile, mode: Mode, minRate: real,
    maxRate: real, scale: Scaling, times: Multiplication)
    requires Untargeted(synthetic, TokenUsage.Normalize(upstream), mode)
    ensures var up := TokenUsage.Normalize(upstream);
      var (u, input) := Resolve(synthetic, upstream, inputTokens, p, mode, minRate, maxRate, scale, times);
      var r := if mode.Actual? && !up.hasCacheBreakdown then NOTHING
               else Reconcile(if up.hasCacheBreakdown then UpstreamBaseline(up, p) else synthetic, input, scale);
      && InputResolved(up, inputTokens, input) && u.totalInput == input && !u.targetApplied && u.mode == mode
      && SameBuckets(u, r.creation, r.read, r.creation5m, r.creation1h)
  {
    var up := TokenUsage.Normalize(upstream);
    ReportedUnaimed(synthetic, up, ResolvedInput(up, inputTokens), p, mode, minRate, maxRate, scale, times);
  }

  /**
   * Outside target mode an upstream breakdown is what is reported: its creation, its read and, if it gives them, its
   * lifetimes, whatever the local estimate says. It always fits the resolved input.
   */
  lemma {:induction false} UpstreamIsReported(
    synthetic: CacheUsage, upstream: TokenUsage.Usage, inputTokens: int, p: PM.Profile, mode: Mode, minRate: real,
    maxRate: real, scale: Scaling, times: Multiplication)
    requires TokenUsage.InRange(upstream) && Exact(scale)
    requires var up := TokenUsage.Normalize(upstream);
      && up.hasCacheBreakdown && Untargeted(synthetic, up, mode)
      && up.cacheRead.value + up.cacheCreation.value <= TokenUsage.MAX_INT
    ensures var up := TokenUsage.Normalize(upstream);
      var (u, input) := Resolve(synthetic, upstream, inputTokens, p, mode, minRate, maxRate, scale, times);
      && InputResolved(up, inputTokens, input) && up.cacheRead.value + up.cacheCreation.value <= input
      && u.creation == up.cacheCreation.value && u.read == up.cacheRead.value
      && Billed(input, u) == input - up.cacheRead.value - up.cacheCreation.value && u.hasUpstreamBreakdown
      && (0 < up.creation5m.value + up.creation1h.value <= TokenUsage.MAX_INT ==>
            u.creation5m == up.creation5m.value && u.creation1h == up.creation1h.value)
  {
    var up := TokenUsage.Normalize(upstream);
    var input := ResolvedInput(up, inputTokens);
    TokenUsage.NormalizeConsistent(upstream);
    SettledFits(up);
    UntargetedReport(synthetic, upstream, inputTokens, p, mode, minRate, maxRate, scale, times);
    BaselineReported(up, input, p, scale);
  }

  lemma {:induction false} BaselineReported(up: TokenUsage.Usage, input: int, p: PM.Profile, scale: Scaling)
    requires TokenUsage.Consistent(up) && TokenUsage.InRange(up) && Exact(scale)
    requires 0 <= up.cacheRead.value + up.cacheCreation.value <= TokenUsage.MAX_INT
    requires up.cacheRead.value + up.cacheCreation.value <= input
    ensures var r := Reconcile(UpstreamBaseline(up, p), input, scale);
      && r.creation == up.cacheCreation.value && r.read == up.cacheRead.value
      && (0 < up.creation5m.value + up.creation1h.value <= TokenUsage.MAX_INT ==>
            r.creation5m == up.creation5m.value && r.creation1h == up.creation1h.value)
  {
    var b := UpstreamBaseline(up, p);
    if input > 0 {
      assert FitInput(b, input, scale) == b;
      FittedLifetimes(b, scale);
      if 0 < up.creation5m.value + up.creation1h.value <= TokenUsage.MAX_INT {
        LifetimesFixed(b, scale);
      }
    }
  }

  /** Without an upstream breakdown a balanced local estimate is reported as it is, and nothing in actual mode. */
  lemma {:induction false} LocalIsReported(
    synthetic: CacheUsage, upstream: TokenUsage.Usage, inputTokens: int, p: PM.Profile, mode: Mode, minRate: real,
    maxRate: real, scale: Scaling, times: Multiplication)
    requires TokenUsage.InRange(upstream) && inputTokens <= TokenUsage.MAX_INT && Exact(scale)
    requires var up := TokenUsage.Normalize(upstream); !up.hasCacheBreakdown && Untargeted(synthetic, up, mode)
    ensures var (u, input) := Resolve(synthetic, upstream, inputTokens, p, mode, minRate, maxRate, scale, times);
      && InputResolved(TokenUsage.Normalize(upstream), inputTokens, input)
      && (mode.Actual? ==> SameBuckets(u, 0, 0, 0, 0) && Billed(input, u) == input)
      && (!mode.Actual? && Balanced(synthetic, input) ==>
            SameBuckets(u, synthetic.creation, synthetic.read, synthetic.creation5m, synthetic.creation1h))
  {
    var up := TokenUsage.Normalize(upstream);
    var input := ResolvedInput(up, inputTokens);
    TokenUsage.NormalizeConsistent(upstream);
    UntargetedReport(synthetic, upstream, inputTokens, p, mode, minRate, maxRate, scale, times);
    if input > 0 && Balanced(synthetic, input) {
      BalancedIsFixed(synthetic, input, scale);
    }
  }

  /**
   * Lifetimes that the upstream leaves out come from the prompt: all five minutes if the prompt has no breakpoints,
   * else the creation bucket split, to the nearest token, as the breakpoints' increments are.
   */
  lemma {:induction false} ProfileSplitsCreation(
    synthetic: CacheUsage, upstream: TokenUsage.Usage, inputTokens: int, p: PM.Profile, mode: Mode, minRate: real,
    maxRate: real, times: Multiplication)
    requires TokenUsage.InRange(upstream) && PM.LastTokens(p.breakpoints, p.totalInputTokens) <= TokenUsage.MAX_INT
    requires var up := TokenUsage.Normalize(upstream);
      && up.hasCacheBreakdown && Untargeted(synthetic, up, mode)
      && up.cacheRead.value + up.cacheCreation.value <= TokenUsage.MAX_INT
      && up.cacheCreation.value > 0 && up.creation5m.value + up.creation1h.value == 0
    ensures var up := TokenUsage.Normalize(upstream);
      var (five, hour) := PM.Breakdown(p.breakpoints, p.totalInputTokens, 0);
      var u := Resolve(synthetic, upstream, inputTokens, p, mode, minRate, maxRate, Rounded, times).0;
      && u.creation5m + u.creation1h == u.creation == up.cacheCreation.value
      && if five + hour <= 0 then u.creation1h == 0
         else Nearest(u.creation5m, Quotient(five, u.creation, five + hour))
  {
    var up := TokenUsage.Normalize(upstream);
    TokenUsage.NormalizeConsistent(upstream);
    SettledFits(up);
    UntargetedReport(synthetic, upstream, inputTokens, p, mode, minRate, maxRate, Rounded, times);
    SplitBaseline(up, up.input.value, p);
  }

  predicate Nearest(n: int, exact: real) {
    exact - 0.5 < n as real <= exact + 0.5
  }

  lemma {:induction false} SplitBaseline(up: TokenUsage.Usage, input: int, p: PM.Profile)
    requires TokenUsage.Consistent(up) && TokenUsage.InRange(up)
    requires PM.LastTokens(p.breakpoints, p.totalInputTokens) <= TokenUsage.MAX_INT
    requires input > 0 && up.cacheRead.value + up.cacheCreation.value <= input <= TokenUsage.MAX_INT
    requires up.cacheCreation.value > 0 && up.creation5m.value + up.creation1h.value == 0
    ensures var r := Reconcile(UpstreamBaseline(up, p), input, Rounded);
      var (five, hour) := PM.Breakdown(p.breakpoints, p.totalInputTokens, 0);
      && r.creation5m + r.creation1h == r.creation == up.cacheCreation.value
      && if five + hour <= 0 then r.creation1h == 0
         else Nearest(r.creation5m, Quotient(five, up.cacheCreation.value, five + hour))
  {
    var b := UpstreamBaseline(up, p);
    var (five, hour) := PM.Breakdown(p.breakpoints, p.totalInputTokens, 0);
    PM.BreakdownCovers(p.breakpoints, p.totalInputTokens, 0);
    assert FitInput(b, input, Rounded) == b;
    if five + hour > 0 {
      RoundedWithin(five, b.creation, five + hour);
    }
  }

  /**
   * In target mode a warm request reports exactly the target read, no creation, and the rest as plain input. The
   * target is the request's own rate, brought into the configured range, or the middle of that range.
   */
  lemma {:induction false} TargetModeReportsTarget(
    synthetic: CacheUsage, upstream: TokenUsage.Usage, inputTokens: int, p: PM.Profile, minRate: real, maxRate: real,
    scale: Scaling, times: Multiplication)
    requires Monotone(times) && TokenUsage.InRange(upstream) && inputTokens <= TokenUsage.MAX_INT
    requires !Cold(synthetic, TokenUsage.Normalize(upstream))
    ensures var (lo, hi) := NormalizeRange(minRate, maxRate);
      var (u, input) := Resolve(synthetic, upstream, inputTokens, p, AggregatorTarget, minRate, maxRate, scale, times);
      input > 0 ==>
        && u.creation == u.creation5m == u.creation1h == 0 && u.targetApplied && u.read + Billed(input, u) == input
        && lo <= u.targetRate <= hi
        && (synthetic.hasTargetRate && lo <= synthetic.targetRate <= hi ==> u.targetRate == synthetic.targetRate)
        && (!synthetic.hasTargetRate ==> u.targetRate == (lo + hi) / 2.0)
        && OnTarget(u.read, input, times(input, u.targetRate), times(input, lo), times(input, hi))
  {
    var up := TokenUsage.Normalize(upstream);
    TokenUsage.NormalizeConsistent(upstream);
    var input := ResolvedInput(up, inputTokens);
    var (lo, hi) := NormalizeRange(minRate, maxRate);
    if input > 0 {
      ReportedTarget(synthetic, up, input, p, minRate, maxRate, scale, times);
      assert lo <= TargetRate(synthetic, minRate, maxRate) <= hi;
    }
  }

  lemma {:induction false} ReportedTarget(
    synthetic: CacheUsage, up: TokenUsage.Usage, input: int, p: PM.Profile, minRate: real, maxRate: real,
        scale: Scaling, times: Multiplication)
    requires Monotone(times) && 0 < input <= TokenUsage.MAX_INT && WarmHit(synthetic, up)
    ensures var r := Reported(synthetic, up, input, p, AggregatorTarget, minRate, maxRate, scale, times);
      var (lo, hi) := NormalizeRange(minRate, maxRate);
      && r.creation == r.creation5m == r.creation1h == 0 && 0 <= r.read <= input
      && OnTarget(r.read, input, times(input, ClampReal(TargetRate(synthetic, minRate, maxRate), lo, hi)),
          times(input, lo), times(input, hi))
  {
    var (lo, hi) := NormalizeRange(minRate, maxRate);
    var rate := TargetRate(synthetic, minRate, maxRate);
    ReportedWhenAimed(synthetic, up, input, p, AggregatorTarget, minRate, maxRate, scale, times,
                      Reconcile(Estimate(synthetic, up, p), input, scale));
    TargetWithinRange(input, rate, lo, hi, times);
  }

  // ------------------------------------------------------------- the client's view

  datatype ClaudeUsage = ClaudeUsage(
    input: int, output: int, thinking: Option<int>, creation: Option<int>, read: Option<int>,
        lifetimes: Option<(int, int)>)

  /** The buckets as the client is told them. */
  function ClientView(input: int, outputTokens: int, thinkingTokens: int, u: CacheUsage,
      includeCache: bool): ClaudeUsage {
    ClaudeUsage(
      Billed(input, u), Max(outputTokens, 0), if thinkingTokens > 0 then Some(thinkingTokens) else None,
      if includeCache then Some(u.creation) else None,
      if includeCache then Some(u.read) else None,
      if includeCache then Some((u.creation5m, u.creation1h)) else None)
  }

  function BuildClaudeUsage(
    inputTokens: int, outputTokens: int, thinkingTokens: int, usage: CacheUsage, includeCache: bool,
        scale: Scaling): ClaudeUsage
  {
    var input := Max(inputTokens, 0);
    ClientView(input, outputTokens, thinkingTokens, Reconcile(usage, input, scale), includeCache)
  }

  predicate AddsUp(v: ClaudeUsage, input: int) {
    && v.creation.Some? && v.read.Some? && v.lifetimes.Some?
    && v.input >= 0 && v.creation.value >= 0 && v.read.value >= 0
    && v.input + v.creation.value + v.read.value == input
    && v.lifetimes.value.0 + v.lifetimes.value.1 == v.creation.value
  }

  lemma {:induction false} ViewAddsUp(input: int, output: int, thinking: int, u: CacheUsage)
    requires Balanced(u, input)
    ensures AddsUp(ClientView(input, output, thinking, u, true), input)
  {
  }

  /** What the client sees adds up to the input; leaving the cache buckets out changes nothing else. */
  lemma {:induction false} ClientUsageConserves(inputTokens: int, output: int, thinking: int, usage: CacheUsage,
      scale: Scaling)
    requires InRange(usage) && inputTokens <= TokenUsage.MAX_INT && Comparable(usage, Max(inputTokens, 0))
    ensures AddsUp(BuildClaudeUsage(inputTokens, output, thinking, usage, true, scale), Max(inputTokens, 0))
    ensures BuildClaudeUsage(inputTokens, output, thinking, usage, false, scale)
         == BuildClaudeUsage(inputTokens, output, thinking, usage, true, scale).(
              creation := None, read := None, lifetimes := None)
  {
    ReconciledBalanced(usage, Max(inputTokens, 0), scale);
    BuiltAddsUp(inputTokens, output, thinking, usage, scale);
  }

  lemma {:induction false} ReconciledBalanced(u: CacheUsage, input: int, scale: Scaling)
    requires InRange(u) && 0 <= input <= TokenUsage.MAX_INT && Comparable(u, input)
    ensures Balanced(Reconcile(u, input, scale), input)
  {
    ReconcileBalances(u, input, scale);
  }

  lemma {:induction false} BuiltAddsUp(inputTokens: int, output: int, thinking: int, usage: CacheUsage, scale: Scaling)
    requires Balanced(Reconcile(usage, Max(inputTokens, 0), scale), Max(inputTokens, 0))
    ensures AddsUp(BuildClaudeUsage(inputTokens, output, thinking, usage, true, scale), Max(inputTokens, 0))
  {
    ViewAddsUp(Max(inputTokens, 0), output, thinking, Reconcile(usage, Max(inputTokens, 0), scale));
  }

  /** What was resolved reaches the client unchanged. */
  lemma {:induction false} ClientUsageFaithful(inputTokens: int, output: int, thinking: int, usage: CacheUsage,
      scale: Scaling)
    requires 0 < inputTokens <= TokenUsage.MAX_INT && Balanced(usage, inputTokens) && Exact(scale)
    ensures BuildClaudeUsage(inputTokens, output, thinking, usage, true, scale)
         == ClaudeUsage(Billed(inputTokens, usage), Max(output, 0), if thinking > 0 then Some(thinking) else None,
                        Some(usage.creation), Some(usage.read), Some((usage.creation5m, usage.creation1h)))
  {
    BalancedIsFixed(usage, inputTokens, scale);
  }
}
