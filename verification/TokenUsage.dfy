/** Upstream token usage: normalisation and frame-to-frame progress (proxy/kiro.go). */
module TokenUsage {
  import opened Common

  /** A reported number and whether it was reported at all. */
  datatype Slot = Slot(value: int, present: bool)

  datatype Usage = Usage(
    input: Slot, output: Slot, thinking: Slot,
    uncached: Slot, cacheRead: Slot, cacheCreation: Slot, creation5m: Slot, creation1h: Slot,
    hasCacheBreakdown: bool, hasThinkingBreakdown: bool)

  const ABSENT := Slot(0, false)
  const EMPTY := Usage(ABSENT, ABSENT, ABSENT, ABSENT, ABSENT, ABSENT, ABSENT, ABSENT, false, false)
  const MAX_INT := 0x7FFF_FFFF_FFFF_FFFF

  function SaturatingAdd(a: int, b: int): (r: int)
    ensures 0 <= r <= MAX_INT
    ensures 0 <= a && 0 <= b && a + b <= MAX_INT ==> r == a + b
    ensures Max(a, 0) <= MAX_INT && Max(b, 0) <= MAX_INT ==> r >= a && r >= b
  {
    var x, y := Max(a, 0), Max(b, 0);
    if x > MAX_INT - y then MAX_INT else x + y
  }

  /** Values are Go ints. */
  predicate InRange(u: Usage) {
    && u.input.value <= MAX_INT && u.output.value <= MAX_INT && u.thinking.value <= MAX_INT
    && u.uncached.value <= MAX_INT && u.cacheRead.value <= MAX_INT && u.cacheCreation.value <= MAX_INT
    && u.creation5m.value <= MAX_INT && u.creation1h.value <= MAX_INT
  }

  function NonNegative(s: Slot): Slot {
    var v := Max(s.value, 0);
    Slot(v, s.present || v > 0)
  }

  /** The two lifetime buckets scaled to a creation total. */
  function ScaledCreation(u: Usage, nested: int): Usage {
    if nested == u.cacheCreation.value then u
    else if nested <= 0 then u.(creation5m := u.creation5m.(value := 0), creation1h := u.creation1h.(value := 0))
    else
      var share := Min(Max(u.creation5m.value * u.cacheCreation.value / nested, 0), u.cacheCreation.value);
      u.(creation5m := u.creation5m.(value := share),
          creation1h := u.creation1h.(value := u.cacheCreation.value - share))
  }

  /** Clamps negatives and lets nested creation buckets stand in for a missing creation total. */
  function Clamped(u: Usage): Usage {
    var five, hour := NonNegative(u.creation5m), NonNegative(u.creation1h);
    var reported := NonNegative(u.cacheCreation);
    var creation := if !reported.present && (five.present || hour.present)
                    then Slot(SaturatingAdd(five.value, hour.value), true) else reported;
    var thinking := NonNegative(u.thinking);
    var c := Usage(
      NonNegative(u.input), NonNegative(u.output), thinking.(present := thinking.present || u.hasThinkingBreakdown),
      NonNegative(u.uncached), NonNegative(u.cacheRead), creation, five, hour,
      false, u.hasThinkingBreakdown);
    c.(hasCacheBreakdown := u.hasCacheBreakdown || c.uncached.present || c.cacheRead.present || c.cacheCreation.present
                            || five.present || hour.present)
  }

  function ResolvedInput(c: Usage): Slot {
    var buckets := SaturatingAdd(c.cacheRead.value, c.cacheCreation.value);
    var total := SaturatingAdd(c.uncached.value, buckets);
    var complete := c.uncached.present && (c.cacheRead.present || c.cacheCreation.present)
                    && (c.uncached.value > 0 || buckets > 0);
    if complete then (if !c.input.present || total > c.input.value then Slot(total, true) else c.input)
    else if !c.input.present then Slot(total, true)
    else c.input.(value := Max(c.input.value, Max(buckets, c.uncached.value)))
  }

  /** Settles the input total and derives the uncached bucket when it was not reported. */
  function Resolved(c: Usage): Usage {
    var input := ResolvedInput(c);
    c.(input := input,
       uncached := if c.uncached.present then c.uncached
                   else c.uncached.(value := input.value - SaturatingAdd(c.cacheRead.value, c.cacheCreation.value)))
  }

  function Normalize(u: Usage): Usage {
    var c := Clamped(u);
    if !c.hasCacheBreakdown then c
    else if c.cacheCreation.present && (c.creation5m.present || c.creation1h.present)
    then ScaledCreation(Resolved(c), SaturatingAdd(c.creation5m.value, c.creation1h.value))
    else Resolved(c)
  }

  predicate NoNegatives(u: Usage) {
    && u.input.value >= 0 && u.output.value >= 0 && u.thinking.value >= 0
    && u.uncached.value >= 0 && u.cacheRead.value >= 0 && u.cacheCreation.value >= 0
    && u.creation5m.value >= 0 && u.creation1h.value >= 0
  }

  /** The three input buckets never exceed the input total. */
  predicate BucketsFit(u: Usage) {
    u.input.value >= SaturatingAdd(u.uncached.value, SaturatingAdd(u.cacheRead.value, u.cacheCreation.value))
  }

  /** The two lifetimes split the creation total, or neither is given. */
  predicate LifetimesSplit(u: Usage) {
    || SaturatingAdd(u.creation5m.value, u.creation1h.value) == u.cacheCreation.value
    || (u.creation5m.value == 0 && u.creation1h.value == 0)
  }

  predicate Consistent(u: Usage) {
    NoNegatives(u) && (u.hasCacheBreakdown ==> BucketsFit(u)) && LifetimesSplit(u)
  }

  /** What clamping establishes about presence. */
  predicate PresenceSound(c: Usage) {
    && (c.input.value > 0 ==> c.input.present)
    && (c.uncached.value > 0 ==> c.uncached.present)
    && (c.cacheRead.value > 0 ==> c.cacheRead.present)
    && (c.cacheCreation.value > 0 ==> c.cacheCreation.present)
    && (c.creation5m.value > 0 ==> c.creation5m.present)
    && (c.creation1h.value > 0 ==> c.creation1h.present)
    && (c.creation5m.present || c.creation1h.present ==> c.cacheCreation.present)
    && (!c.hasCacheBreakdown ==> !c.uncached.present && !c.cacheRead.present && !c.cacheCreation.present)
  }

  lemma {:induction false} ClampedSound(u: Usage)
    requires InRange(u)
    ensures var c := Clamped(u);
      && NoNegatives(c) && PresenceSound(c) && InRange(c)
      && c.input.value == Max(u.input.value, 0) && c.output.value == Max(u.output.value, 0)
      && c.thinking.value == Max(u.thinking.value, 0) && c.uncached.value == Max(u.uncached.value, 0)
      && c.cacheRead.value == Max(u.cacheRead.value, 0) && c.cacheCreation.value >= u.cacheCreation.value
  {
  }

  lemma {:induction false} ResolvedSound(c: Usage)
    requires NoNegatives(c) && PresenceSound(c) && InRange(c) && c.hasCacheBreakdown
    ensures var r := Resolved(c);
      && NoNegatives(r) && InRange(r) && BucketsFit(r)
      && r.input.present && r.input.value >= c.input.value && r.uncached.value >= c.uncached.value
      && r.hasCacheBreakdown
      && (!r.uncached.present ==> r.uncached.value == r.input.value - SaturatingAdd(r.cacheRead.value,
          r.cacheCreation.value))
      && r == c.(input := r.input, uncached := r.uncached)
  {
  }

  lemma {:induction false} ScaledSound(u: Usage, nested: int)
    requires NoNegatives(u) && InRange(u) && nested == SaturatingAdd(u.creation5m.value, u.creation1h.value)
    ensures var r := ScaledCreation(u, nested);
      && NoNegatives(r) && InRange(r) && LifetimesSplit(r)
      && r == u.(creation5m := u.creation5m.(value := r.creation5m.value),
          creation1h := u.creation1h.(value := r.creation1h.value))
  {
  }

  /** A usage on which normalisation has nothing left to do. */
  predicate Settled(n: Usage) {
    && Consistent(n) && InRange(n)
    && (n.input.value > 0 ==> n.input.present)
    && (n.cacheRead.value > 0 ==> n.cacheRead.present)
    && (n.cacheCreation.value > 0 ==> n.cacheCreation.present)
    && (n.creation5m.value > 0 || n.creation1h.value > 0 || n.creation5m.present || n.creation1h.present
        ==> n.cacheCreation.present)
    && (!n.hasCacheBreakdown ==> !n.cacheRead.present && !n.cacheCreation.present && n.uncached == ABSENT)
    && (n.hasCacheBreakdown ==>
          n.input.present
          && (!n.uncached.present ==> n.uncached.value == n.input.value - SaturatingAdd(n.cacheRead.value,
              n.cacheCreation.value)))
  }

  lemma {:induction false} NormalizeSettled(u: Usage)
    requires InRange(u)
    ensures Settled(Normalize(u))
  {
    var c := Clamped(u);
    ClampedSound(u);
    if c.hasCacheBreakdown {
      ResolvedSound(c);
      ScaledSound(Resolved(c), SaturatingAdd(c.creation5m.value, c.creation1h.value));
    }
  }

  /** Normalisation yields a consistent usage and never lowers what was reported. */
  lemma {:induction false} NormalizeConsistent(u: Usage)
    requires InRange(u)
    ensures Consistent(Normalize(u)) && InRange(Normalize(u))
    ensures var n := Normalize(u);
      && n.input.value >= u.input.value && n.output.value >= u.output.value && n.thinking.value >= u.thinking.value
      && n.uncached.value >= u.uncached.value && n.cacheRead.value >= u.cacheRead.value
      && n.cacheCreation.value >= u.cacheCreation.value
  {
    var c := Clamped(u);
    ClampedSound(u);
    NormalizeSettled(u);
    if c.hasCacheBreakdown {
      ResolvedSound(c);
      ScaledSound(Resolved(c), SaturatingAdd(c.creation5m.value, c.creation1h.value));
    }
  }

  predicate SameNumbers(a: Usage, b: Usage) {
    && a.input.value == b.input.value && a.output.value == b.output.value && a.thinking.value == b.thinking.value
    && a.uncached.value == b.uncached.value && a.cacheRead.value == b.cacheRead.value
    && a.cacheCreation.value == b.cacheCreation.value
    && a.creation5m.value == b.creation5m.value && a.creation1h.value == b.creation1h.value
  }

  lemma {:induction false} SettledIsFixed(n: Usage)
    requires Settled(n)
    ensures SameNumbers(Normalize(n), n)
  {
    var c := Clamped(n);
    ClampedSound(n);
    assert SameNumbers(c, n);
    if c.hasCacheBreakdown {
      SettledResolves(n, c);
      var r := Resolved(c);
      var nested := SaturatingAdd(c.creation5m.value, c.creation1h.value);
      if c.creation5m.present || c.creation1h.present {
        SettledScales(r, nested);
      }
    }
  }

  lemma {:induction false} SettledResolves(n: Usage, c: Usage)
    requires Settled(n) && c == Clamped(n) && c.hasCacheBreakdown
    ensures SameNumbers(Resolved(c), n)
  {
  }

  lemma {:induction false} SettledScales(r: Usage, nested: int)
    requires NoNegatives(r) && LifetimesSplit(r) && nested == SaturatingAdd(r.creation5m.value, r.creation1h.value)
    ensures SameNumbers(ScaledCreation(r, nested), r)
  {
  }

  /** Normalising twice changes no number. */
  lemma {:induction false} NormalizeIdempotent(u: Usage)
    requires InRange(u)
    ensures SameNumbers(Normalize(Normalize(u)), Normalize(u))
  {
    NormalizeSettled(u);
    SettledIsFixed(Normalize(u));
  }

  // ------------------------------------------------------------------ closed form

  /** A number counts as given when it is marked so or positive. */
  predicate Given(s: Slot) {
    s.present || s.value > 0
  }

  /** Some part of a cache breakdown is given. */
  predicate BrokenDown(u: Usage) {
    || u.hasCacheBreakdown || Given(u.uncached) || Given(u.cacheRead) || Given(u.cacheCreation)
    || Given(u.creation5m) || Given(u.creation1h)
  }

  lemma {:induction false} ShareWithin(part: int, whole: int, total: int)
    requires 0 <= part <= total && total > 0 && whole >= 0
    ensures 0 <= part * whole / total <= whole
  {
    var q := part * whole / total;
    assert 0 <= part * whole by {
      Scaled(0, part, whole);
    }
    assert part * whole <= total * whole by {
      Scaled(part, total, whole);
    }
    assert q * total <= part * whole < (q + 1) * total;
    if q > whole {
      Scaled(whole + 1, q, total);
      assert false;
    }
  }

  lemma {:induction false} Scaled(a: int, b: int, c: int)
    requires a <= b && c >= 0
    ensures a * c <= b * c
  {
  }

  /**
   * Every number of a normalised usage: the input is the larger of the reported total and the buckets together, a
   * missing creation total is the sum of the lifetimes, a missing uncached bucket is the rest of the input, and
   * lifetimes that do not add up to the creation total are scaled to it.
   */
  lemma {:induction false} NormalizeClosedForm(u: Usage)
    requires InRange(u)
    ensures var n := Normalize(u); var five, hour := Max(u.creation5m.value, 0), Max(u.creation1h.value, 0);
      var nested := SaturatingAdd(five, hour); var cached := SaturatingAdd(n.cacheRead.value, n.cacheCreation.value);
      && n.output.value == Max(u.output.value, 0) && n.thinking.value == Max(u.thinking.value, 0)
      && n.cacheRead.value == Max(u.cacheRead.value, 0) && n.hasCacheBreakdown == BrokenDown(u)
      && n.cacheCreation.value == (if Given(u.cacheCreation) then Max(u.cacheCreation.value, 0) else nested)
      && n.input.value == Max(Max(u.input.value, 0),
           if BrokenDown(u) then SaturatingAdd(Max(u.uncached.value, 0), cached) else 0)
      && n.uncached.value == (if Given(u.uncached) || !BrokenDown(u) then Max(u.uncached.value, 0)
                              else n.input.value - cached)
      && if nested == n.cacheCreation.value || nested == 0 then n.creation5m.value == five && n.creation1h.value == hour
         else n.creation5m.value == five * n.cacheCreation.value / nested
              && n.creation1h.value == n.cacheCreation.value - n.creation5m.value
  {
    var c := Clamped(u);
    ClampedSound(u);
    ClosedClamp(u, c);
    if c.hasCacheBreakdown {
      ResolvedSound(c);
      ClosedInput(c);
      var nested := SaturatingAdd(c.creation5m.value, c.creation1h.value);
      if nested > 0 {
        ShareWithin(c.creation5m.value, c.cacheCreation.value, nested);
      }
    }
  }

  /** Which numbers a normalised usage counts as given: those marked so or positive, and those derived from them. */
  predicate PresenceClosedForm(u: Usage, n: Usage) {
    && n.input.present == (Given(u.input) || BrokenDown(u)) && n.output.present == Given(u.output)
    && n.thinking.present == (Given(u.thinking) || u.hasThinkingBreakdown)
    && n.uncached.present == Given(u.uncached) && n.cacheRead.present == Given(u.cacheRead)
    && n.cacheCreation.present == (Given(u.cacheCreation) || Given(u.creation5m) || Given(u.creation1h))
    && n.creation5m.present == Given(u.creation5m) && n.creation1h.present == Given(u.creation1h)
  }

  lemma {:induction false} NormalizePresence(u: Usage)
    requires InRange(u)
    ensures PresenceClosedForm(u, Normalize(u))
  {
    var c := Clamped(u);
    ClampedSound(u);
    if c.hasCacheBreakdown {
      ResolvedSound(c);
      ScaledSound(Resolved(c), SaturatingAdd(c.creation5m.value, c.creation1h.value));
    }
  }

  lemma {:induction false} ClosedClamp(u: Usage, c: Usage)
    requires c == Clamped(u)
    ensures c.creation5m.value == Max(u.creation5m.value, 0) && c.creation1h.value == Max(u.creation1h.value, 0)
    ensures c.cacheCreation.value == if Given(u.cacheCreation) then Max(u.cacheCreation.value, 0)
      else SaturatingAdd(c.creation5m.value, c.creation1h.value)
    ensures c.hasCacheBreakdown == BrokenDown(u) && c.uncached.present == Given(u.uncached)
  {
  }

  lemma {:induction false} ClosedInput(c: Usage)
    requires NoNegatives(c) && PresenceSound(c) && InRange(c)
    ensures ResolvedInput(c).value
         == Max(c.input.value, SaturatingAdd(c.uncached.value, SaturatingAdd(c.cacheRead.value, c.cacheCreation.value)))
  {
  }

  // --------------------------------------------------------------------- progress

  /** The running input total: a positive report may only raise it. */
  function InputProgress(current: Slot, next: Slot): Slot {
    var c := current.(present := current.present || current.value > 0);
    if !next.present then c
    else if next.value > 0 && (!c.present || c.value <= 0 || next.value > c.value) then Slot(next.value, true)
    else if c.value <= 0 then Slot(next.value, true)
    else c
  }

  function TotalProgress(current: Slot, next: Slot): Slot {
    var c := current.(present := current.present || current.value > 0);
    if !next.present then c
    else Slot(if next.value > c.value || c.value <= 0 then next.value else c.value, true)
  }

  function BucketProgress(current: Slot, next: Slot): Slot {
    var c := current.(present := current.present || current.value > 0);
    if !next.present then c
    else Slot(if !c.present || Max(next.value, 0) > c.value then Max(next.value, 0) else c.value, true)
  }

  /** Combines the snapshots of two successive frames. */
  function Combined(current: Usage, next: Usage): Usage {
    Usage(
      InputProgress(current.input, next.input),
      TotalProgress(current.output, next.output),
      TotalProgress(current.thinking, next.thinking),
      BucketProgress(current.uncached, next.uncached),
      BucketProgress(current.cacheRead, next.cacheRead),
      BucketProgress(current.cacheCreation, next.cacheCreation),
      BucketProgress(current.creation5m, next.creation5m),
      BucketProgress(current.creation1h, next.creation1h),
      current.hasCacheBreakdown || next.hasCacheBreakdown,
      current.hasThinkingBreakdown || next.hasThinkingBreakdown)
  }

  function Progress(current: Usage, next: Usage): Usage {
    Normalize(Combined(current, next))
  }

  /** The counters that must never go backwards. */
  predicate NoRegression(a: Usage, b: Usage) {
    && a.input.value <= b.input.value && a.output.value <= b.output.value && a.thinking.value <= b.thinking.value
    && a.uncached.value <= b.uncached.value && a.cacheRead.value <= b.cacheRead.value
    && a.cacheCreation.value <= b.cacheCreation.value
  }

  lemma {:induction false} ProgressNeverRegresses(current: Usage, next: Usage)
    requires InRange(current) && InRange(next) && Consistent(current)
    ensures NoRegression(current, Progress(current, next))
    ensures Consistent(Progress(current, next)) && InRange(Progress(current, next))
  {
    CombinedGrows(current, next);
    NormalizeConsistent(Combined(current, next));
  }

  lemma {:induction false} CombinedGrows(current: Usage, next: Usage)
    requires InRange(current) && InRange(next) && NoNegatives(current)
    ensures var m := Combined(current, next);
      && InRange(m)
      && current.input.value <= Max(m.input.value, 0) && current.output.value <= Max(m.output.value, 0)
      && current.thinking.value <= Max(m.thinking.value, 0) && current.uncached.value <= m.uncached.value
      && current.cacheRead.value <= m.cacheRead.value && current.cacheCreation.value <= m.cacheCreation.value
  {
  }

  /** The usages seen over a stream whose frames report the given snapshots. */
  ghost predicate IsStream(us: seq<Usage>, frames: seq<Usage>) {
    && |us| == |frames| + 1 && us[0] == EMPTY
    && forall i :: 0 <= i < |frames| ==> InRange(frames[i]) && us[i + 1] == Progress(us[i], frames[i])
  }

  lemma {:induction false} StreamConsistent(us: seq<Usage>, frames: seq<Usage>, i: nat)
    requires IsStream(us, frames) && i < |us|
    ensures Consistent(us[i]) && InRange(us[i])
  {
    if i > 0 {
      StreamConsistent(us, frames, i - 1);
      ProgressNeverRegresses(us[i - 1], frames[i - 1]);
    }
  }

  lemma {:induction false} RegressionTrans(us: seq<Usage>, i: nat, j: nat)
    requires forall k :: 0 < k < |us| ==> NoRegression(us[k - 1], us[k])
    requires i <= j < |us|
    ensures NoRegression(us[i], us[j])
  {
    if i < j {
      RegressionTrans(us, i, j - 1);
    }
  }

  /** Over every stream the counters only grow and the breakdown stays consistent after every frame. */
  lemma {:induction false} UsageNeverRegresses(us: seq<Usage>, frames: seq<Usage>, i: nat, j: nat)
    requires IsStream(us, frames) && i <= j < |us|
    ensures NoRegression(us[i], us[j])
    ensures Consistent(us[j])
  {
    StreamConsistent(us, frames, j);
    forall k | 0 < k < |us| ensures NoRegression(us[k - 1], us[k]) {
      FrameNeverRegresses(us, frames, k);
    }
    RegressionTrans(us, i, j);
  }

  lemma {:induction false} FrameNeverRegresses(us: seq<Usage>, frames: seq<Usage>, j: nat)
    requires IsStream(us, frames) && 0 < j < |us|
    ensures NoRegression(us[j - 1], us[j])
  {
    StreamConsistent(us, frames, j - 1);
    ProgressNeverRegresses(us[j - 1], frames[j - 1]);
  }

  // ------------------------------------------------- when the input is as reported

  /** The total input that a frame reports, zero for none. */
  function ReportedInput(f: Usage): int {
    if f.input.present then Max(f.input.value, 0) else 0
  }

  /** The largest value of a bucket so far, and whether it was ever reported. */
  function Running(a: Slot, b: Slot): Slot {
    Slot(Max(Max(a.value, 0), if b.present then Max(b.value, 0) else 0), a.present || a.value > 0 || b.present)
  }

  /** The running creation bucket; the two lifetimes stand in for it until it is reported itself. */
  function RunningCreation(u: Usage, f: Usage): Slot {
    var creation := Running(u.cacheCreation, f.cacheCreation);
    var five, hour := Running(u.creation5m, f.creation5m), Running(u.creation1h, f.creation1h);
    if !creation.present && (five.present || hour.present) then Slot(SaturatingAdd(five.value, hour.value), true)
        else creation
  }

  /**
   * The running buckets fit a total: all three together once the breakdown is complete, and until then
   * the two cache buckets together and the uncached bucket each on its own.
   */
  predicate BucketsStayWithin(u: Usage, f: Usage, total: int) {
    var uncached, read, creation := Running(u.uncached, f.uncached), Running(u.cacheRead, f.cacheRead),
        RunningCreation(u, f);
    var cached := SaturatingAdd(read.value, creation.value);
    if uncached.present && (read.present || creation.present) then SaturatingAdd(uncached.value, cached) <= total
    else Max(uncached.value, cached) <= total
  }

  lemma {:induction false} BucketRuns(a: Slot, b: Slot)
    ensures NonNegative(BucketProgress(a, b)) == Running(a, b)
  {
  }

  lemma {:induction false} InputRuns(a: Slot, f: Usage)
    requires a.value >= 0
    ensures NonNegative(InputProgress(a, f.input)).value == Max(a.value, ReportedInput(f))
  {
  }

  lemma {:induction false} CombinedRuns(u: Usage, f: Usage)
    requires InRange(u) && InRange(f) && NoNegatives(u)
    ensures var c := Clamped(Combined(u, f));
      && c.uncached == Running(u.uncached, f.uncached) && c.cacheRead == Running(u.cacheRead, f.cacheRead)
      && c.cacheCreation == RunningCreation(u, f)
      && c.input.value == Max(u.input.value, ReportedInput(f))
  {
    BucketRuns(u.uncached, f.uncached);
    BucketRuns(u.cacheRead, f.cacheRead);
    BucketRuns(u.cacheCreation, f.cacheCreation);
    BucketRuns(u.creation5m, f.creation5m);
    BucketRuns(u.creation1h, f.creation1h);
    InputRuns(u.input, f);
  }

  lemma {:induction false} ResolvedStays(c: Usage, u: Usage, f: Usage)
    requires PresenceSound(c) && NoNegatives(c) && InRange(c) && c.hasCacheBreakdown
    requires c.uncached == Running(u.uncached, f.uncached) && c.cacheRead == Running(u.cacheRead, f.cacheRead)
    requires c.cacheCreation == RunningCreation(u, f)
    ensures ResolvedInput(c).value == c.input.value <==> BucketsStayWithin(u, f, c.input.value)
  {
  }

  lemma {:induction false} NormalizedInput(m: Usage)
    ensures var c := Clamped(m); Normalize(m).input.value == if c.hasCacheBreakdown then ResolvedInput(c).value
        else c.input.value
  {
  }

  /**
   * After a frame the input is the larger of the total before and the total reported, exactly when the buckets
   * fit it.
   */
  lemma {:induction false} InputAsReportedIff(u: Usage, f: Usage)
    requires InRange(u) && InRange(f) && Consistent(u)
    ensures var largest := Max(u.input.value, ReportedInput(f));
      && Progress(u, f).input.value >= largest
      && (Progress(u, f).input.value == largest <==> BucketsStayWithin(u, f, largest))
  {
    var m := Combined(u, f);
    CombinedRuns(u, f);
    CombinedGrows(u, f);
    ClampedSound(m);
    NormalizedInput(m);
    ClampedStays(Clamped(m), u, f);
  }

  lemma {:induction false} ClampedStays(c: Usage, u: Usage, f: Usage)
    requires PresenceSound(c) && NoNegatives(c) && InRange(c)
    requires c.uncached == Running(u.uncached, f.uncached) && c.cacheRead == Running(u.cacheRead, f.cacheRead)
    requires c.cacheCreation == RunningCreation(u, f)
    ensures var input := if c.hasCacheBreakdown then ResolvedInput(c).value else c.input.value;
      input >= c.input.value && (input == c.input.value <==> BucketsStayWithin(u, f, c.input.value))
  {
    if c.hasCacheBreakdown {
      ResolvedStays(c, u, f);
    }
  }

  function Largest(rs: seq<int>): int {
    if rs == [] then 0 else Max(Largest(rs[..|rs| - 1]), rs[|rs| - 1])
  }

  /** The totals that the frames report. */
  function Reports(frames: seq<Usage>): seq<int> {
    seq(|frames|, i requires 0 <= i < |frames| => ReportedInput(frames[i]))
  }

  /** A sequence that grows at least with what is reported, and exactly with it where it fits. */
  predicate Follows(xs: seq<int>, rs: seq<int>, fits: seq<bool>) {
    && |xs| == |rs| + 1 == |fits| + 1 && xs[0] == 0
    && forall i :: 0 <= i < |rs| ==> xs[i + 1] >= Max(xs[i], rs[i]) && (xs[i + 1] == Max(xs[i], rs[i]) <==> fits[i])
  }

  lemma {:induction false} FollowsAbove(xs: seq<int>, rs: seq<int>, fits: seq<bool>, i: nat)
    requires Follows(xs, rs, fits) && i < |xs|
    ensures xs[i] >= Largest(rs[..i])
    ensures (forall k :: 0 <= k < i ==> fits[k]) ==> xs[i] == Largest(rs[..i])
  {
    if i > 0 {
      FollowsAbove(xs, rs, fits, i - 1);
      assert rs[..i][..i - 1] == rs[..i - 1];
    }
  }

  lemma {:induction false} FollowsIff(xs: seq<int>, rs: seq<int>, fits: seq<bool>)
    requires Follows(xs, rs, fits)
    ensures (forall i :: 0 <= i < |xs| ==> xs[i] <= Largest(rs[..i])) <==> (forall i :: 0 <= i < |rs| ==> fits[i])
  {
    forall i | 0 <= i < |xs|
      ensures xs[i] >= Largest(rs[..i]) && ((forall k :: 0 <= k < i ==> fits[k]) ==> xs[i] == Largest(rs[..i]))
    {
      FollowsAbove(xs, rs, fits, i);
    }
    if forall i :: 0 <= i < |xs| ==> xs[i] <= Largest(rs[..i]) {
      forall i | 0 <= i < |rs| ensures fits[i] {
        assert rs[..i + 1][..i] == rs[..i];
        assert xs[i] == Largest(rs[..i]) && xs[i + 1] == Largest(rs[..i + 1]);
      }
    }
  }

  lemma {:induction false} StreamInputStep(us: seq<Usage>, frames: seq<Usage>, i: nat)
    requires IsStream(us, frames) && i < |frames|
    ensures var largest := Max(us[i].input.value, ReportedInput(frames[i]));
      && us[i + 1].input.value >= largest
      && (us[i + 1].input.value == largest <==> BucketsStayWithin(us[i], frames[i], largest))
  {
    StreamConsistent(us, frames, i);
    InputAsReportedIff(us[i], frames[i]);
  }

  /** The buckets of one frame of a stream fit the total known then. */
  predicate FrameFits(us: seq<Usage>, frames: seq<Usage>, i: nat)
    requires i < |us| && i < |frames|
  {
    BucketsStayWithin(us[i], frames[i], Max(us[i].input.value, ReportedInput(frames[i])))
  }

  /** Over a stream the input never passes the largest total reported so far, exactly when every frame's buckets fit. */
  lemma {:induction false} StreamInputAsReportedIff(us: seq<Usage>, frames: seq<Usage>)
    requires IsStream(us, frames)
    ensures (forall i :: 0 <= i < |us| ==> us[i].input.value <= Largest(Reports(frames)[..i]))
       <==> (forall i :: 0 <= i < |frames| ==> FrameFits(us, frames, i))
  {
    var xs := seq(|us|, i requires 0 <= i < |us| => us[i].input.value);
    var fits := seq(|frames|, i requires 0 <= i < |frames| => FrameFits(us, frames, i));
    forall i | 0 <= i < |frames|
      ensures xs[i + 1] >= Max(xs[i], Reports(frames)[i]) && (xs[i + 1] == Max(xs[i], Reports(frames)[i]) <==> fits[i])
    {
      StreamInputStep(us, frames, i);
    }
    FollowsIff(xs, Reports(frames), fits);
    assert forall i :: 0 <= i < |us| ==> xs[i] == us[i].input.value;
    assert forall i :: 0 <= i < |frames| ==> fits[i] == FrameFits(us, frames, i);
  }

  // --------------------------------------------------------- the other counters

  /** The number that a frame reports in a slot, zero for none. */
  function Told(s: Slot): int {
    if s.present then Max(s.value, 0) else 0
  }

  lemma {:induction false} TotalRuns(a: Slot, b: Slot)
    requires a.value >= 0
    ensures Max(TotalProgress(a, b).value, 0) == Max(a.value, Told(b))
  {
  }

  /** After a frame output, thinking and cache reads are the larger of before and reported, and creation runs along. */
  lemma {:induction false} CountersAfterFrame(u: Usage, f: Usage)
    requires InRange(u) && InRange(f) && Consistent(u)
    ensures var n := Progress(u, f);
      && n.output.value == Max(u.output.value, Told(f.output))
      && n.thinking.value == Max(u.thinking.value, Told(f.thinking))
      && n.cacheRead.value == Max(u.cacheRead.value, Told(f.cacheRead))
      && n.cacheCreation.value == RunningCreation(u, f).value
      && n.hasThinkingBreakdown == (u.hasThinkingBreakdown || f.hasThinkingBreakdown)
      && n.output.present == (Given(u.output) || f.output.present)
      && n.thinking.present == (Given(u.thinking) || f.thinking.present || n.hasThinkingBreakdown)
      && n.input.present == (Given(u.input) || f.input.present || n.hasCacheBreakdown)
      && n.hasCacheBreakdown == (BrokenDown(u) || f.hasCacheBreakdown || f.uncached.present || f.cacheRead.present
                                 || f.cacheCreation.present || f.creation5m.present || f.creation1h.present)
  {
    var m := Combined(u, f);
    CombinedGrows(u, f);
    CombinedRuns(u, f);
    TotalRuns(u.output, f.output);
    TotalRuns(u.thinking, f.thinking);
    BucketRuns(u.cacheRead, f.cacheRead);
    NormalizeClosedForm(m);
    NormalizePresence(m);
    var c := Clamped(m);
    ClampedSound(m);
    ClosedClamp(m, c);
  }

  /** What the frames report in one slot. */
  function ToldIn(frames: seq<Usage>, slot: Usage -> Slot): seq<int> {
    seq(|frames|, i requires 0 <= i < |frames| => Told(slot(frames[i])))
  }

  lemma {:induction false} ClimbsToLargest(us: seq<Usage>, frames: seq<Usage>, slot: Usage -> Slot, i: nat)
    requires |us| == |frames| + 1 && i < |us| && slot(us[0]).value == 0
    requires forall k :: 0 <= k < |frames| ==> slot(us[k + 1]).value == Max(slot(us[k]).value, Told(slot(frames[k])))
    ensures slot(us[i]).value == Largest(ToldIn(frames, slot)[..i])
  {
    if i > 0 {
      ClimbsToLargest(us, frames, slot, i - 1);
      assert ToldIn(frames, slot)[..i][..i - 1] == ToldIn(frames, slot)[..i - 1];
    }
  }

  /** After any number of frames output, thinking and cache reads are the largest numbers reported so far. */
  lemma {:induction false} CountersAreLargest(us: seq<Usage>, frames: seq<Usage>, i: nat)
    requires IsStream(us, frames) && i < |us|
    ensures us[i].output.value == Largest(ToldIn(frames, (u: Usage) => u.output)[..i])
    ensures us[i].thinking.value == Largest(ToldIn(frames, (u: Usage) => u.thinking)[..i])
    ensures us[i].cacheRead.value == Largest(ToldIn(frames, (u: Usage) => u.cacheRead)[..i])
  {
    forall k | 0 <= k < |frames|
      ensures us[k + 1].output.value == Max(us[k].output.value, Told(frames[k].output))
      ensures us[k + 1].thinking.value == Max(us[k].thinking.value, Told(frames[k].thinking))
      ensures us[k + 1].cacheRead.value == Max(us[k].cacheRead.value, Told(frames[k].cacheRead))
    {
      StreamConsistent(us, frames, k);
      CountersAfterFrame(us[k], frames[k]);
    }
    ClimbsToLargest(us, frames, (u: Usage) => u.output, i);
    ClimbsToLargest(us, frames, (u: Usage) => u.thinking, i);
    ClimbsToLargest(us, frames, (u: Usage) => u.cacheRead, i);
  }

  /** The merged input can exceed every reported total: a derived uncached bucket is later taken as reported. */
  lemma {:induction false} DerivedBucketRaisesInput() returns (us: seq<Usage>, frames: seq<Usage>)
    ensures IsStream(us, frames)
    ensures forall i :: 0 <= i < |frames| ==> frames[i].input.value <= 100
    ensures us[|us| - 1].input.value > 100
  {
    var first := EMPTY.(input := Slot(100, true), cacheRead := Slot(10, true));
    var second := EMPTY.(cacheRead := Slot(50, true));
    frames := [first, second];
    us := [EMPTY, Progress(EMPTY, first), Progress(Progress(EMPTY, first), second)];
  }
}
