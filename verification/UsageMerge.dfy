/** Merging the usage candidates of one event, independent of the order they were found in (proxy/kiro.go). */
module UsageMerge {
  import opened Common
  import opened StableSort
  import opened TokenUsage

  datatype Candidate = Candidate(usage: Usage, priority: int, completeness: int, path: string)

  datatype Field = Input | Output | Thinking | Uncached | CacheRead | CacheCreation | Creation5m | Creation1h

  function Reported(u: Usage, f: Field): Slot {
    match f
    case Input => u.input
    case Output => u.output
    case Thinking => u.thinking
    case Uncached => u.uncached
    case CacheRead => u.cacheRead
    case CacheCreation => u.cacheCreation
    case Creation5m => u.creation5m
    case Creation1h => u.creation1h
  }

  /** Totals keep a positive value against a later zero; cache buckets do not. */
  predicate KeepsPositive(f: Field) {
    f.Input? || f.Output? || f.Thinking?
  }

  function Amount(c: Candidate, f: Field): int {
    Max(Reported(c.usage, f).value, 0)
  }

  predicate Outranks(c: Candidate, priority: int, completeness: int) {
    c.priority > priority || (c.priority == priority && c.completeness > completeness)
  }

  /** One field being merged: its value, whether it was ever set, and the rank it came from. */
  datatype Merging = Merging(value: int, set_: bool, priority: int, completeness: int)

  const UNSET := Merging(0, false, 0, 0)

  function Take(value: int, c: Candidate): Merging {
    Merging(value, true, c.priority, c.completeness)
  }

  function MergeField(m: Merging, c: Candidate, f: Field): Merging {
    if !Reported(c.usage, f).present then m else
      var value := Amount(c, f);
      var existing := Max(m.value, 0);
      if !m.set_ then Take(value, c)
      else if value == 0 && existing > 0 then
        (if !KeepsPositive(f) && Outranks(c, m.priority, m.completeness) then Take(0, c) else m)
      else if existing == 0 && value > 0 then Take(value, c)
      else if Outranks(c, m.priority, m.completeness) then Take(value, c)
      else if c.priority == m.priority && c.completeness == m.completeness && value > existing then Take(value, c)
      else m
  }

  function Folded(cs: seq<Candidate>, f: Field): Merging {
    if cs == [] then UNSET else MergeField(Folded(cs[..|cs| - 1], f), cs[|cs| - 1], f)
  }

  // ----------------------------------------------------------------- closed form

  predicate Relevant(c: Candidate, f: Field, positiveOnly: bool) {
    Reported(c.usage, f).present && (positiveOnly ==> Amount(c, f) > 0)
  }

  /** d comes no higher than c, and if it ties with c it reports no more. */
  predicate NotAbove(d: Candidate, c: Candidate, f: Field) {
    Outranks(c, d.priority, d.completeness)
    || (d.priority == c.priority && d.completeness == c.completeness && Amount(d, f) <= Amount(c, f))
  }

  /** v is the largest value at the highest rank among the relevant candidates. */
  ghost predicate LargestAtTop(cs: seq<Candidate>, f: Field, positiveOnly: bool, v: int) {
    exists c :: c in cs && Relevant(c, f, positiveOnly) && Amount(c, f) == v
                && forall d :: d in cs && Relevant(d, f, positiveOnly) ==> NotAbove(d, c, f)
  }

  ghost predicate Any(cs: seq<Candidate>, f: Field, positiveOnly: bool) {
    exists c :: c in cs && Relevant(c, f, positiveOnly)
  }

  /** The merged field: absent if nobody reports it, zero if a total has no positive report, else the top value. */
  ghost predicate ClosedForm(cs: seq<Candidate>, f: Field, r: Slot) {
    if !Any(cs, f, false) then r == ABSENT
    else r.present && (if KeepsPositive(f) && !Any(cs, f, true) then r.value == 0
                       else LargestAtTop(cs, f, KeepsPositive(f), r.value))
  }

  lemma {:induction false} LargestAtTopUnique(a: seq<Candidate>, b: seq<Candidate>, f: Field, p: bool, v: int, w: int)
    requires multiset(a) == multiset(b)
    requires LargestAtTop(a, f, p, v) && LargestAtTop(b, f, p, w)
    ensures v == w
  {
    SameMembers(a, b);
    var c :| c in a && Relevant(c, f, p) && Amount(c, f) == v && forall d :: d in a && Relevant(d, f, p) ==>
        NotAbove(d, c, f);
    var e :| e in b && Relevant(e, f, p) && Amount(e, f) == w && forall d :: d in b && Relevant(d, f, p) ==>
        NotAbove(d, e, f);
    assert NotAbove(e, c, f) && NotAbove(c, e, f);
  }

  lemma {:induction false} SameMembers(a: seq<Candidate>, b: seq<Candidate>)
    requires multiset(a) == multiset(b)
    ensures forall c :: c in a <==> c in b
  {
    forall c ensures c in a <==> c in b {
      assert c in a <==> c in multiset(a);
      assert c in b <==> c in multiset(b);
    }
  }

  lemma {:induction false} ClosedFormUnique(a: seq<Candidate>, b: seq<Candidate>, f: Field, r: Slot, q: Slot)
    requires multiset(a) == multiset(b)
    requires ClosedForm(a, f, r) && ClosedForm(b, f, q)
    ensures r == q
  {
    SameMembers(a, b);
    assert Any(a, f, false) <==> Any(b, f, false);
    assert Any(a, f, true) <==> Any(b, f, true);
    if Any(a, f, false) && !(KeepsPositive(f) && !Any(a, f, true)) {
      LargestAtTopUnique(a, b, f, KeepsPositive(f), r.value, q.value);
    }
  }

  // ------------------------------------------------------- the fold meets the form

  /** Ranks never decrease along the list. */
  ghost predicate Ranked(cs: seq<Candidate>) {
    forall i, j :: 0 <= i < j < |cs| ==> !Outranks(cs[i], cs[j].priority, cs[j].completeness)
  }

  /** What the partial fold knows: the witness of its value and the rank it came from. */
  ghost predicate FoldKnows(cs: seq<Candidate>, f: Field, m: Merging) {
    && m.value >= 0
    && (m.set_ <==> Any(cs, f, false))
    && (!m.set_ ==> m == UNSET)
    && (m.set_ && !(KeepsPositive(f) && m.value == 0) ==> Witnessed(cs, f, m))
    && (KeepsPositive(f) && m.value == 0 ==> !Any(cs, f, true))
  }

  ghost predicate Witnessed(cs: seq<Candidate>, f: Field, m: Merging) {
    exists c :: IsTop(cs, f, c) && Take(Amount(c, f), c) == m
  }

  ghost predicate IsTop(cs: seq<Candidate>, f: Field, c: Candidate) {
    && c in cs && Relevant(c, f, KeepsPositive(f))
    && forall d :: d in cs && Relevant(d, f, KeepsPositive(f)) ==> NotAbove(d, c, f)
  }

  /** With a top candidate c known, merging x keeps c or makes x the new top. */
  lemma {:induction false} TopStep(cs: seq<Candidate>, x: Candidate, f: Field, c: Candidate)
    requires IsTop(cs, f, c) && !Outranks(c, x.priority, x.completeness)
    requires !(KeepsPositive(f) && Amount(c, f) == 0)
    ensures var r := MergeField(Take(Amount(c, f), c), x, f);
      var top := if Reported(x.usage, f).present && NotAbove(c, x, f) && (KeepsPositive(f) ==> Amount(x, f) > 0) then x
          else c;
      IsTop(cs + [x], f, top) && r == Take(Amount(top, f), top)
  {
    var top := if Reported(x.usage, f).present && NotAbove(c, x, f) && (KeepsPositive(f) ==> Amount(x, f) > 0) then x
        else c;
    forall d | d in cs + [x] && Relevant(d, f, KeepsPositive(f)) ensures NotAbove(d, top, f) {
      if d != x {
        assert NotAbove(d, c, f);
      }
    }
  }

  /** Adding a candidate that is not outranked keeps what the fold knows. */
  lemma {:induction false} FoldStep(cs: seq<Candidate>, x: Candidate, f: Field, m: Merging)
    requires FoldKnows(cs, f, m)
    requires forall c :: c in cs ==> !Outranks(c, x.priority, x.completeness)
    ensures FoldKnows(cs + [x], f, MergeField(m, x, f))
  {
    var all := cs + [x];
    AnyStep(cs, x, f, false);
    AnyStep(cs, x, f, true);
    if m.set_ && !(KeepsPositive(f) && m.value == 0) {
      var c :| IsTop(cs, f, c) && Take(Amount(c, f), c) == m;
      TopStep(cs, x, f, c);
    } else if Relevant(x, f, KeepsPositive(f)) {
      assert IsTop(all, f, x);
    }
  }

  lemma {:induction false} AnyStep(cs: seq<Candidate>, x: Candidate, f: Field, p: bool)
    ensures Any(cs + [x], f, p) <==> Any(cs, f, p) || Relevant(x, f, p)
  {
    assert forall c :: c in cs + [x] <==> c in cs || c == x;
    assert x in cs + [x];
  }

  lemma {:induction false} FoldMeetsForm(cs: seq<Candidate>, f: Field)
    requires Ranked(cs)
    ensures FoldKnows(cs, f, Folded(cs, f))
  {
    if cs != [] {
      var rest, x := cs[..|cs| - 1], cs[|cs| - 1];
      FoldMeetsForm(rest, f);
      forall c | c in rest ensures !Outranks(c, x.priority, x.completeness) {
        var i :| 0 <= i < |rest| && rest[i] == c;
        assert cs[i] == c;
      }
      FoldStep(rest, x, f, Folded(rest, f));
      assert rest + [x] == cs;
    }
  }

  // ----------------------------------------------------------------- whole events

  predicate CandidateLess(a: Candidate, b: Candidate) {
    if a.priority != b.priority then a.priority < b.priority
    else if a.completeness != b.completeness then a.completeness < b.completeness
    else StringLess(a.path, b.path)
  }

  function Less(): (Candidate, Candidate) -> bool {
    (a, b) => CandidateLess(a, b)
  }

  lemma {:induction false} LessStrictWeak()
    ensures StrictWeak(Less())
  {
    forall a, b | CandidateLess(a, b) ensures !CandidateLess(b, a) {
      StringLessAsymmetric(a.path, b.path);
    }
    forall a, b, c | CandidateLess(a, c) ensures CandidateLess(a, b) || CandidateLess(b, c) {
      if StringLess(a.path, c.path) {
        StringLessCotransitive(a.path, b.path, c.path);
      }
    }
  }

  lemma {:induction false} SortedIsRanked(cs: seq<Candidate>)
    ensures Ranked(Sort(cs, Less()))
  {
    LessStrictWeak();
    SortSorted(cs, Less());
    var s := Sort(cs, Less());
    forall i, j | 0 <= i < j < |s| ensures !Outranks(s[i], s[j].priority, s[j].completeness) {
      assert !Less()(s[j], s[i]);
    }
  }

  function AnyCacheBreakdown(cs: seq<Candidate>): bool {
    exists i :: 0 <= i < |cs| && cs[i].usage.hasCacheBreakdown
  }

  function AnyThinkingBreakdown(cs: seq<Candidate>): bool {
    exists i :: 0 <= i < |cs| && cs[i].usage.hasThinkingBreakdown
  }

  function SlotOf(m: Merging): Slot {
    Slot(m.value, m.set_)
  }

  /** The merged usage before normalisation. */
  function Assembled(cs: seq<Candidate>): Usage {
    var s := Sort(cs, Less());
    Usage(SlotOf(Folded(s, Input)), SlotOf(Folded(s, Output)), SlotOf(Folded(s, Thinking)),
          SlotOf(Folded(s, Uncached)), SlotOf(Folded(s, CacheRead)), SlotOf(Folded(s, CacheCreation)),
          SlotOf(Folded(s, Creation5m)), SlotOf(Folded(s, Creation1h)),
          AnyCacheBreakdown(s), AnyThinkingBreakdown(s))
  }

  function Merged(cs: seq<Candidate>): Usage {
    Normalize(Assembled(cs))
  }

  /** Every field of the sort-then-fold merge equals its closed form. */
  lemma {:induction false} MergeIsClosedForm(cs: seq<Candidate>, f: Field)
    ensures ClosedForm(cs, f, Reported(Assembled(cs), f))
  {
    var s := Sort(cs, Less());
    SortedIsRanked(cs);
    FoldMeetsForm(s, f);
    SortedClosedForm(s, f, Folded(s, f));
    SameMembers(s, cs);
    ClosedFormTransfers(s, cs, f, SlotOf(Folded(s, f)));
    assert Reported(Assembled(cs), f) == SlotOf(Folded(s, f));
  }

  /** d ranks below c by source and completeness, or ties with it there and reports no more. */
  predicate Yields(d: Candidate, c: Candidate, f: Field) {
    || d.priority < c.priority
    || (d.priority == c.priority && d.completeness < c.completeness)
    || (d.priority == c.priority && d.completeness == c.completeness
        && Max(Reported(d.usage, f).value, 0) <= Max(Reported(c.usage, f).value, 0))
  }

  /** The three totals, for which a zero is only a placeholder. */
  predicate IsTotal(f: Field) {
    f == Input || f == Output || f == Thinking
  }

  predicate Reports(c: Candidate, f: Field) {
    Reported(c.usage, f).present && (IsTotal(f) ==> Reported(c.usage, f).value > 0)
  }

  /**
   * The winner of a field: where some candidate reports it, and for a total reports it positive, the merged number is
   * that of one to which all others yield; a total reported only as zero is zero, and an unreported field is absent.
   */
  lemma {:induction false} WinnerOfField(cs: seq<Candidate>, f: Field)
    ensures var r := Reported(Assembled(cs), f);
      if exists c :: c in cs && Reports(c, f) then
        r.present && exists c :: c in cs && Reports(c, f) && r.value == Max(Reported(c.usage, f).value, 0)
                                 && forall d :: d in cs && Reports(d, f) ==> Yields(d, c, f)
      else r == Slot(0, exists c :: c in cs && Reported(c.usage, f).present)
  {
    MergeIsClosedForm(cs, f);
    FormHasWinner(cs, f, Reported(Assembled(cs), f));
  }

  lemma {:induction false} FormHasWinner(cs: seq<Candidate>, f: Field, r: Slot)
    requires ClosedForm(cs, f, r)
    ensures if exists c :: c in cs && Reports(c, f) then
        r.present && exists c :: c in cs && Reports(c, f) && r.value == Max(Reported(c.usage, f).value, 0)
                                 && forall d :: d in cs && Reports(d, f) ==> Yields(d, c, f)
      else r == Slot(0, exists c :: c in cs && Reported(c.usage, f).present)
  {
    assert forall c :: Reports(c, f) <==> Relevant(c, f, IsTotal(f));
    assert Any(cs, f, IsTotal(f)) <==> exists c :: c in cs && Reports(c, f);
    if Any(cs, f, IsTotal(f)) {
      var w :| w in cs && Relevant(w, f, IsTotal(f));
      assert Relevant(w, f, false) && Any(cs, f, false);
      var c :| c in cs && Relevant(c, f, IsTotal(f)) && Amount(c, f) == r.value
        && forall d :: d in cs && Relevant(d, f, IsTotal(f)) ==> NotAbove(d, c, f);
      assert Reports(c, f);
      forall d | d in cs && Reports(d, f) ensures Yields(d, c, f) {
        assert NotAbove(d, c, f);
      }
    } else {
      assert Any(cs, f, false) <==> exists c :: c in cs && Reported(c.usage, f).present;
    }
  }

  lemma {:induction false} SortedClosedForm(s: seq<Candidate>, f: Field, m: Merging)
    requires FoldKnows(s, f, m)
    ensures ClosedForm(s, f, SlotOf(m))
  {
    if m.set_ && !(KeepsPositive(f) && m.value == 0) {
      assert Witnessed(s, f, m);
      var c :| IsTop(s, f, c) && Take(Amount(c, f), c) == m;
      assert LargestAtTop(s, f, KeepsPositive(f), m.value);
      assert Any(s, f, KeepsPositive(f));
    }
  }

  lemma {:induction false} ClosedFormTransfers(a: seq<Candidate>, b: seq<Candidate>, f: Field, r: Slot)
    requires forall c :: c in a <==> c in b
    requires ClosedForm(a, f, r)
    ensures ClosedForm(b, f, r)
  {
    assert Any(a, f, false) <==> Any(b, f, false);
    assert Any(a, f, true) <==> Any(b, f, true);
    var p := KeepsPositive(f);
    if LargestAtTop(a, f, p, r.value) {
      var c :| c in a && Relevant(c, f, p) && Amount(c, f) == r.value && forall d :: d in a && Relevant(d, f, p) ==>
          NotAbove(d, c, f);
      assert c in b;
      assert LargestAtTop(b, f, p, r.value);
    }
  }

  lemma {:induction false} FlagsTransfer(a: seq<Candidate>, b: seq<Candidate>)
    requires forall c :: c in a <==> c in b
    ensures AnyCacheBreakdown(a) ==> AnyCacheBreakdown(b)
    ensures AnyThinkingBreakdown(a) ==> AnyThinkingBreakdown(b)
  {
    if AnyCacheBreakdown(a) {
      var i :| 0 <= i < |a| && a[i].usage.hasCacheBreakdown;
      assert a[i] in b;
    }
    if AnyThinkingBreakdown(a) {
      var i :| 0 <= i < |a| && a[i].usage.hasThinkingBreakdown;
      assert a[i] in b;
    }
  }

  /** The merge does not depend on the order in which candidates were collected. */
  lemma {:induction false} MergeOrderIndependent(a: seq<Candidate>, b: seq<Candidate>)
    requires multiset(a) == multiset(b)
    ensures Merged(a) == Merged(b)
  {
    AssembledAgree(a, b);
  }

  lemma {:induction false} SameReports(u: Usage, v: Usage)
    requires forall f: Field :: Reported(u, f) == Reported(v, f)
    requires u.hasCacheBreakdown == v.hasCacheBreakdown && u.hasThinkingBreakdown == v.hasThinkingBreakdown
    ensures u == v
  {
    assert Reported(u, Input) == Reported(v, Input) && Reported(u, Output) == Reported(v, Output);
    assert Reported(u, Thinking) == Reported(v, Thinking) && Reported(u, Uncached) == Reported(v, Uncached);
    assert Reported(u, CacheRead) == Reported(v, CacheRead) && Reported(u, CacheCreation) == Reported(v, CacheCreation);
    assert Reported(u, Creation5m) == Reported(v, Creation5m) && Reported(u, Creation1h) == Reported(v, Creation1h);
  }

  lemma {:induction false} AssembledAgree(a: seq<Candidate>, b: seq<Candidate>)
    requires multiset(a) == multiset(b)
    ensures Assembled(a) == Assembled(b)
  {
    var u, v := Assembled(a), Assembled(b);
    forall f: Field ensures Reported(u, f) == Reported(v, f) {
      FieldsAgree(a, b, f);
    }
    var s, t := Sort(a, Less()), Sort(b, Less());
    SameMembers(s, t);
    FlagsTransfer(s, t);
    FlagsTransfer(t, s);
    SameReports(u, v);
  }

  lemma {:induction false} FieldsAgree(a: seq<Candidate>, b: seq<Candidate>, f: Field)
    requires multiset(a) == multiset(b)
    ensures Reported(Assembled(a), f) == Reported(Assembled(b), f)
  {
    MergeIsClosedForm(a, f);
    MergeIsClosedForm(b, f);
    ClosedFormUnique(a, b, f, Reported(Assembled(a), f), Reported(Assembled(b), f));
  }

  // ------------------------------------------------------------- whole streams

  predicate AllInRange(cs: seq<Candidate>) {
    forall i :: 0 <= i < |cs| ==> InRange(cs[i].usage)
  }

  lemma {:induction false} FieldInRange(cs: seq<Candidate>, f: Field)
    requires AllInRange(cs)
    ensures Reported(Assembled(cs), f).value <= MAX_INT
  {
    MergeIsClosedForm(cs, f);
    forall c | c in cs ensures Amount(c, f) <= MAX_INT {
      var i :| 0 <= i < |cs| && cs[i] == c;
      assert InRange(cs[i].usage);
    }
  }

  lemma {:induction false} MergedInRange(cs: seq<Candidate>)
    requires AllInRange(cs)
    ensures InRange(Merged(cs))
  {
    var u := Assembled(cs);
    forall f: Field ensures Reported(u, f).value <= MAX_INT {
      FieldInRange(cs, f);
    }
    AssembledInRange(u);
    NormalizeConsistent(u);
  }

  lemma {:induction false} AssembledInRange(u: Usage)
    requires forall f: Field :: Reported(u, f).value <= MAX_INT
    ensures InRange(u)
  {
    assert Reported(u, Input).value <= MAX_INT && Reported(u, Output).value <= MAX_INT
        && Reported(u, Thinking).value <= MAX_INT;
    assert Reported(u, Uncached).value <= MAX_INT && Reported(u, CacheRead).value <= MAX_INT;
    assert Reported(u, CacheCreation).value <= MAX_INT;
    assert Reported(u, Creation5m).value <= MAX_INT && Reported(u, Creation1h).value <= MAX_INT;
  }

  /** The usages over a stream in which each event carries a list of candidates. */
  ghost predicate IsEventStream(us: seq<Usage>, events: seq<seq<Candidate>>) {
    && |us| == |events| + 1 && us[0] == EMPTY
    && forall i :: 0 <= i < |events| ==> AllInRange(events[i]) && us[i + 1] == Progress(us[i], Merged(events[i]))
  }

  lemma {:induction false} EventStreamIsStream(us: seq<Usage>, events: seq<seq<Candidate>>, frames: seq<Usage>)
    requires IsEventStream(us, events) && |frames| == |events|
    requires forall i :: 0 <= i < |events| ==> frames[i] == Merged(events[i])
    ensures IsStream(us, frames)
  {
    forall i | 0 <= i < |frames| ensures InRange(frames[i]) && us[i + 1] == Progress(us[i], frames[i]) {
      MergedInRange(events[i]);
    }
  }

  /** Usage never regresses over a stream of events, whatever candidates each of them carries. */
  lemma {:induction false} EventsNeverRegress(us: seq<Usage>, events: seq<seq<Candidate>>, i: nat, j: nat)
    requires IsEventStream(us, events) && i <= j < |us|
    ensures NoRegression(us[i], us[j]) && Consistent(us[j])
  {
    var frames := seq(|events|, n requires 0 <= n < |events| => Merged(events[n]));
    EventStreamIsStream(us, events, frames);
    UsageNeverRegresses(us, frames, i, j);
  }

  /** The usage after every event is the same however the candidates of each event were found. */
  lemma {:induction false} StreamOrderIndependent(
    us: seq<Usage>, vs: seq<Usage>, events: seq<seq<Candidate>>, shuffled: seq<seq<Candidate>>, i: nat)
    requires IsEventStream(us, events) && IsEventStream(vs, shuffled) && |events| == |shuffled| && i < |us|
    requires forall n :: 0 <= n < |events| ==> multiset(events[n]) == multiset(shuffled[n])
    ensures us[i] == vs[i]
  {
    if i > 0 {
      StreamOrderIndependent(us, vs, events, shuffled, i - 1);
      SameStep(us, events, vs, shuffled, i - 1);
    }
  }

  lemma {:induction false} SameStep(us: seq<Usage>, events: seq<seq<Candidate>>, vs: seq<Usage>,
      shuffled: seq<seq<Candidate>>, n: nat)
    requires |us| == |events| + 1 == |vs| == |shuffled| + 1 && n < |events| && us[n] == vs[n]
    requires multiset(events[n]) == multiset(shuffled[n])
    requires us[n + 1] == Progress(us[n], Merged(events[n])) && vs[n + 1] == Progress(vs[n], Merged(shuffled[n]))
    ensures us[n + 1] == vs[n + 1]
  {
    MergeOrderIndependent(events[n], shuffled[n]);
  }

  // --------------------------------------------------------------- the merge state

  class MergeState {
    var fields: map<Field, Merging>
    var hasCacheBreakdown: bool
    var hasThinkingBreakdown: bool

    /** The state after merging a list of candidates. */
    ghost predicate Holds(cs: seq<Candidate>)
      reads this
    {
      && (forall f: Field :: f in fields && fields[f] == Folded(cs, f))
      && hasCacheBreakdown == AnyCacheBreakdown(cs)
      && hasThinkingBreakdown == AnyThinkingBreakdown(cs)
    }

    constructor ()
      ensures Holds([])
    {
      fields := map[Input := UNSET, Output := UNSET, Thinking := UNSET, Uncached := UNSET,
                    CacheRead := UNSET, CacheCreation := UNSET, Creation5m := UNSET, Creation1h := UNSET];
      hasCacheBreakdown, hasThinkingBreakdown := false, false;
      new;
      forall f: Field ensures f in fields && fields[f] == UNSET {
        AllFields(f);
      }
    }

    method MergeOne(f: Field, c: Candidate)
      requires f in fields
      modifies this`fields
      ensures fields == old(fields)[f := MergeField(old(fields)[f], c, f)]
    {
      var m := fields[f];
      var reported := Reported(c.usage, f);
      if !reported.present {
        assert fields == fields[f := m];
        return;
      }
      var value := Max(reported.value, 0);
      if !m.set_ {
        fields := fields[f := Take(value, c)];
        return;
      }
      var existing := Max(m.value, 0);
      if value == 0 && existing > 0 {
        if !KeepsPositive(f) && Outranks(c, m.priority, m.completeness) {
          fields := fields[f := Take(0, c)];
        } else {
          assert fields == fields[f := m];
        }
      } else if existing == 0 && value > 0 {
        fields := fields[f := Take(value, c)];
      } else if Outranks(c, m.priority, m.completeness) {
        fields := fields[f := Take(value, c)];
      } else if c.priority == m.priority && c.completeness == m.completeness && value > existing {
        fields := fields[f := Take(value, c)];
      } else {
        assert fields == fields[f := m];
      }
    }

    method Merge(c: Candidate, ghost cs: seq<Candidate>)
      requires Holds(cs)
      modifies this
      ensures Holds(cs + [c])
    {
      assert (cs + [c])[..|cs|] == cs;
      MergeOne(Input, c);
      MergeOne(Output, c);
      MergeOne(Thinking, c);
      MergeOne(Uncached, c);
      MergeOne(CacheRead, c);
      MergeOne(CacheCreation, c);
      MergeOne(Creation5m, c);
      MergeOne(Creation1h, c);
      forall f: Field ensures f in fields && fields[f] == MergeField(Folded(cs, f), c, f) {
        AllFields(f);
      }
      FlagsStep(cs, c);
      hasCacheBreakdown := hasCacheBreakdown || c.usage.hasCacheBreakdown;
      hasThinkingBreakdown := hasThinkingBreakdown || c.usage.hasThinkingBreakdown;
    }
  }

  lemma {:induction false} AllFields(f: Field)
    ensures f in {Input, Output, Thinking, Uncached, CacheRead, CacheCreation, Creation5m, Creation1h}
  {
  }

  lemma {:induction false} FlagsStep(cs: seq<Candidate>, c: Candidate)
    ensures AnyCacheBreakdown(cs + [c]) == (AnyCacheBreakdown(cs) || c.usage.hasCacheBreakdown)
    ensures AnyThinkingBreakdown(cs + [c]) == (AnyThinkingBreakdown(cs) || c.usage.hasThinkingBreakdown)
  {
    var all := cs + [c];
    assert all[|cs|] == c;
    assert forall i :: 0 <= i < |cs| ==> all[i] == cs[i];
  }

  method MergeTokenUsageCandidates(candidates: seq<Candidate>) returns (usage: Usage)
    ensures usage == Merged(candidates)
  {
    var sorted := Sort(candidates, Less());
    var state := new MergeState();
    for i := 0 to |sorted|
      invariant state.Holds(sorted[..i])
    {
      state.Merge(sorted[i], sorted[..i]);
      assert sorted[..i + 1] == sorted[..i] + [sorted[i]];
    }
    assert sorted[..|sorted|] == sorted;
    var fs := state.fields;
    usage := Normalize(Usage(
      SlotOf(fs[Input]), SlotOf(fs[Output]), SlotOf(fs[Thinking]), SlotOf(fs[Uncached]), SlotOf(fs[CacheRead]),
      SlotOf(fs[CacheCreation]), SlotOf(fs[Creation5m]), SlotOf(fs[Creation1h]),
      state.hasCacheBreakdown, state.hasThinkingBreakdown));
  }
}
