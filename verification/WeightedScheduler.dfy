/** Account selection: eligibility, the three routing orders and the weighted commit (pool/account.go). */
module WeightedScheduler {
  import opened Common
  import opened StableSort
  import RR = SmoothRoundRobin

  datatype Mode = Priority | Balanced | Weighted | Unknown

  datatype Account = Account(
    id: string, weight: int, priority: int,
    hasRefreshToken: bool, hasAccessToken: bool, expiresAt: int,
    overUsageLimit: bool, overageEnabled: bool)

  /** What selection reads but never writes. Instants are milliseconds. */
  datatype Catalog = Catalog(
    accounts: seq<Account>,
    modelLists: map<string, set<string>>,
    modelNegative: map<(string, string), int>,
    cooldowns: map<string, int>,
    refreshFailures: map<string, int>)

  datatype Query = Query(
    model: string, excluded: set<string>, now: int,
    allowOverUsage: bool, refreshLead: int, mode: Mode)

  const MAX_ACCOUNT_WEIGHT := 100
  const TOKEN_REFRESH_SKEW_SECONDS := 120

  function EffectiveWeight(weight: int): (r: int)
    ensures 1 <= r <= MAX_ACCOUNT_WEIGHT
    ensures 1 <= weight <= MAX_ACCOUNT_WEIGHT ==> r == weight
    ensures weight < 1 ==> r == 1
    ensures weight > MAX_ACCOUNT_WEIGHT ==> r == MAX_ACCOUNT_WEIGHT
  {
    if weight < 1 then 1 else if weight > MAX_ACCOUNT_WEIGHT then MAX_ACCOUNT_WEIGHT else weight
  }

  predicate QuotaBlocked(a: Account, allowOverUsage: bool) {
    a.overUsageLimit && !a.overageEnabled && !allowOverUsage
  }

  predicate TokenNeedsRefresh(a: Account, q: Query) {
    || (a.hasRefreshToken && !a.hasAccessToken)
    || (a.expiresAt > 0
        && q.now / 1000 >= a.expiresAt - if a.hasRefreshToken then q.refreshLead else TOKEN_REFRESH_SKEW_SECONDS)
  }

  predicate RefreshFailing(c: Catalog, id: string, now: int) {
    id in c.refreshFailures && c.refreshFailures[id] > now
  }

  predicate Selectable(c: Catalog, a: Account, q: Query, allowRefreshFallback: bool) {
    && a.id !in q.excluded
    && !(q.model != "" && (a.id, q.model) in c.modelNegative && q.now < c.modelNegative[(a.id, q.model)])
    && !(a.id in c.cooldowns && q.now < c.cooldowns[a.id])
    && (TokenNeedsRefresh(a, q) ==> allowRefreshFallback && a.hasRefreshToken && !RefreshFailing(c, a.id, q.now))
    && !QuotaBlocked(a, q.allowOverUsage)
  }

  /** Index i survives the scan: selectable and, outside weighted mode, the first with its id. */
  predicate Chosen(c: Catalog, q: Query, allowRefreshFallback: bool, i: int)
    requires 0 <= i < |c.accounts|
  {
    && Selectable(c, c.accounts[i], q, allowRefreshFallback)
    && (q.mode.Priority? || q.mode.Balanced? ==> forall j :: 0 <= j < i ==> c.accounts[j].id != c.accounts[i].id)
  }

  /** The surviving indexes below n, in account order. */
  ghost function ChosenBelow(c: Catalog, q: Query, allowRefreshFallback: bool, n: nat): seq<int>
    requires n <= |c.accounts|
  {
    if n == 0 then []
    else ChosenBelow(c, q, allowRefreshFallback, n - 1)
         + if Chosen(c, q, allowRefreshFallback, n - 1) then [n - 1] else []
  }

  ghost function Eligible(c: Catalog, q: Query): seq<int> {
    var ready := ChosenBelow(c, q, false, |c.accounts|);
    if ready == [] then ChosenBelow(c, q, true, |c.accounts|) else ready
  }

  lemma {:induction false} ChosenBelowExact(c: Catalog, q: Query, f: bool, n: nat)
    requires n <= |c.accounts|
    ensures var s := ChosenBelow(c, q, f, n);
      && (forall i :: i in s <==> 0 <= i < n && Chosen(c, q, f, i))
      && (forall a, b :: 0 <= a < b < |s| ==> s[a] < s[b])
  {
    if n > 0 {
      ChosenBelowExact(c, q, f, n - 1);
      var s := ChosenBelow(c, q, f, n - 1);
      assert forall a :: 0 <= a < |s| ==> s[a] in s;
    }
  }

  /** Ready accounts only; accounts that must refresh first are offered only when none is ready. */
  lemma {:induction false} EligibleExact(c: Catalog, q: Query)
    ensures InCatalog(c, Eligible(c, q))
    ensures var s := Eligible(c, q);
      var someReady := exists k :: 0 <= k < |c.accounts| && Chosen(c, q, false, k);
      && (forall i :: i in s <==> 0 <= i < |c.accounts| && Chosen(c, q, !someReady, i))
      && (forall a, b :: 0 <= a < b < |s| ==> s[a] < s[b])
  {
    ChosenBelowExact(c, q, false, |c.accounts|);
    ChosenBelowExact(c, q, true, |c.accounts|);
    var ready := ChosenBelow(c, q, false, |c.accounts|);
    if ready != [] {
      assert ready[0] in ready;
    }
    var s := Eligible(c, q);
    assert forall a :: 0 <= a < |s| ==> s[a] in s;
  }

  // ---------------------------------------------------------------- ordering

  datatype SortKey = SortKey(first: int, second: int, third: int, id: string)

  predicate KeyLess(a: SortKey, b: SortKey) {
    if a.first != b.first then a.first < b.first
    else if a.second != b.second then a.second < b.second
    else if a.third != b.third then a.third < b.third
    else StringLess(a.id, b.id)
  }

  predicate Advertises(c: Catalog, id: string, model: string) {
    model != "" && id in c.modelLists && model in c.modelLists[id]
  }

  /** The fields each mode compares, smallest first. */
  function KeyOf(c: Catalog, model: string, mode: Mode, scores: map<string, int>, i: int): SortKey {
    if !(0 <= i < |c.accounts|) then SortKey(0, 0, 0, "") else
      var a := c.accounts[i];
      var unadvertised := if Advertises(c, a.id, model) then 0 else 1;
      match mode
      case Priority => SortKey(a.priority, unadvertised, -a.weight, a.id)
      case Balanced => SortKey(a.priority, unadvertised, 0, a.id)
      case _ => SortKey(-(Lookup(scores, a.id) + EffectiveWeight(a.weight)), unadvertised, 0, a.id)
  }

  function Before(c: Catalog, model: string, mode: Mode, scores: map<string, int>): (int, int) -> bool {
    (i, j) => KeyLess(KeyOf(c, model, mode, scores, i), KeyOf(c, model, mode, scores, j))
  }

  lemma {:induction false} BeforeStrictWeak(c: Catalog, model: string, mode: Mode, scores: map<string, int>)
    ensures StrictWeak(Before(c, model, mode, scores))
  {
    var less := Before(c, model, mode, scores);
    forall a, b | less(a, b) ensures !less(b, a) {
      StringLessAsymmetric(KeyOf(c, model, mode, scores, a).id, KeyOf(c, model, mode, scores, b).id);
    }
    forall a, b, d | less(a, d) ensures less(a, b) || less(b, d) {
      var ka, kb, kd := KeyOf(c, model, mode, scores, a), KeyOf(c, model, mode, scores, b),
          KeyOf(c, model, mode, scores, d);
      if StringLess(ka.id, kd.id) {
        StringLessCotransitive(ka.id, kb.id, kd.id);
      }
    }
  }

  predicate InCatalog(c: Catalog, s: seq<int>) {
    forall k :: 0 <= k < |s| ==> 0 <= s[k] < |c.accounts|
  }

  lemma {:induction false} SortInCatalog(c: Catalog, s: seq<int>, less: (int, int) -> bool)
    requires InCatalog(c, s)
    ensures InCatalog(c, Sort(s, less))
  {
    var r := Sort(s, less);
    forall k | 0 <= k < |r| ensures 0 <= r[k] < |c.accounts| {
      assert r[k] in multiset(r);
    }
  }

  /** Length of the leading run with the priority of the first element. */
  ghost function TierEnd(c: Catalog, s: seq<int>, n: nat): nat
    requires 1 <= n <= |s|
    requires InCatalog(c, s)
    ensures n <= TierEnd(c, s, n) <= |s|
    decreases |s| - n
  {
    if n < |s| && c.accounts[s[n]].priority == c.accounts[s[0]].priority then TierEnd(c, s, n + 1) else n
  }

  ghost function Rotated(c: Catalog, s: seq<int>, cursor: nat): seq<int>
    requires InCatalog(c, s)
  {
    if |s| < 2 then s else
      var tier := TierEnd(c, s, 1);
      var offset := cursor % tier;
      s[offset..tier] + s[..offset] + s[tier..]
  }

  ghost function Order(c: Catalog, eligible: seq<int>, q: Query, scores: map<string, int>, cursor: nat): seq<int> {
    var sorted := Sort(eligible, Before(c, q.model, q.mode, scores));
    if q.mode.Balanced? && InCatalog(c, sorted) then Rotated(c, sorted, cursor) else sorted
  }

  /** In weighted mode nothing eligible outranks the head by score. */
  lemma {:induction false} WeightedHeadIsTop(c: Catalog, eligible: seq<int>, q: Query, scores: map<string, int>,
      cursor: nat)
    requires q.mode.Weighted? && eligible != []
    requires InCatalog(c, eligible)
    ensures var head := Order(c, eligible, q, scores, cursor)[0];
      && head in eligible
      && forall i :: i in eligible ==>
           Lookup(scores, c.accounts[i].id) + EffectiveWeight(c.accounts[i].weight)
           <= Lookup(scores, c.accounts[head].id) + EffectiveWeight(c.accounts[head].weight)
  {
    var less := Before(c, q.model, q.mode, scores);
    var s := Sort(eligible, less);
    BeforeStrictWeak(c, q.model, q.mode, scores);
    SortSorted(eligible, less);
    assert s[0] in multiset(s);
    forall i | i in eligible
      ensures Lookup(scores, c.accounts[i].id) + EffectiveWeight(c.accounts[i].weight)
           <= Lookup(scores, c.accounts[s[0]].id) + EffectiveWeight(c.accounts[s[0]].weight)
    {
      assert i in multiset(s);
      var k :| 0 <= k < |s| && s[k] == i;
      assert k > 0 ==> !less(s[k], s[0]);
    }
  }

  // ------------------------------------------------------------------ commit

  function WeightAt(c: Catalog, i: int): int {
    if 0 <= i < |c.accounts| then EffectiveWeight(c.accounts[i].weight) else 0
  }

  function IdAt(c: Catalog, i: int): string {
    if 0 <= i < |c.accounts| then c.accounts[i].id else ""
  }

  function TotalWeight(c: Catalog, s: seq<int>): int {
    if s == [] then 0 else TotalWeight(c, s[..|s| - 1]) + WeightAt(c, s[|s| - 1])
  }

  function AddWeights(c: Catalog, s: seq<int>, scores: map<string, int>): map<string, int> {
    if s == [] then scores else
      var m := AddWeights(c, s[..|s| - 1], scores);
      var i := s[|s| - 1];
      if 0 <= i < |c.accounts| then m[IdAt(c, i) := Lookup(m, IdAt(c, i)) + WeightAt(c, i)] else m
  }

  /** The scores after a pick is committed against the eligible list it was drawn from. */
  function Commit(c: Catalog, scores: map<string, int>, selectedID: string, eligible: seq<int>,
      mode: Mode): map<string, int> {
    if selectedID == "" || eligible == [] || !mode.Weighted? then scores else
      var m := AddWeights(c, eligible, scores);
      if TotalWeight(c, eligible) > 0 then m[selectedID := Lookup(m, selectedID) - TotalWeight(c, eligible)] else m
  }

  function CommitCursor(c: Catalog, cursor: nat, selectedID: string, eligible: seq<int>, mode: Mode): nat {
    if selectedID == "" || eligible == [] then cursor
    else if mode.Balanced? || (mode.Weighted? && TotalWeight(c, eligible) > 0) then cursor + 1
    else cursor
  }

  lemma {:induction false} AddWeightsSum(c: Catalog, s: seq<int>, scores: map<string, int>)
    ensures MapSum(AddWeights(c, s, scores)) == MapSum(scores) + TotalWeight(c, s)
    ensures TotalWeight(c, s) >= 0
  {
    if s != [] {
      var m := AddWeights(c, s[..|s| - 1], scores);
      var i := s[|s| - 1];
      AddWeightsSum(c, s[..|s| - 1], scores);
      MapSumUpdate(m, IdAt(c, i), Lookup(m, IdAt(c, i)) + WeightAt(c, i));
    }
  }

  /** The cursor counts the committed picks of the two rotating modes. */
  lemma {:induction false} CursorCountsPicks(c: Catalog, cursor: nat, selectedID: string, eligible: seq<int>,
      mode: Mode)
    requires InCatalog(c, eligible)
    ensures CommitCursor(c, cursor, selectedID, eligible, mode)
         == if selectedID != "" && eligible != [] && (mode.Balanced? || mode.Weighted?) then cursor + 1 else cursor
  {
    if eligible != [] {
      AddWeightsSum(c, eligible[..|eligible| - 1], map[]);
    }
  }

  /** Every commit conserves the sum of all scores, even when a busy top account was skipped. */
  lemma {:induction false} CommitConservesSum(c: Catalog, scores: map<string, int>, selectedID: string,
      eligible: seq<int>, mode: Mode)
    ensures MapSum(Commit(c, scores, selectedID, eligible, mode)) == MapSum(scores)
  {
    var m := AddWeights(c, eligible, scores);
    AddWeightsSum(c, eligible, scores);
    MapSumUpdate(m, selectedID, Lookup(m, selectedID) - TotalWeight(c, eligible));
  }

  // ----------------------------------------------------------- exact fairness

  /** Total weight that a list gives to one account id. */
  function WeightFor(c: Catalog, s: seq<int>, id: string): int {
    if s == [] then 0
    else WeightFor(c, s[..|s| - 1], id)
         + if 0 <= s[|s| - 1] < |c.accounts| && IdAt(c, s[|s| - 1]) == id then WeightAt(c, s[|s| - 1]) else 0
  }

  lemma {:induction false} AddWeightsPointwise(c: Catalog, s: seq<int>, scores: map<string, int>, id: string)
    ensures Lookup(AddWeights(c, s, scores), id) == Lookup(scores, id) + WeightFor(c, s, id)
  {
    if s != [] {
      AddWeightsPointwise(c, s[..|s| - 1], scores, id);
    }
  }

  lemma {:induction false} TotalsConcat(c: Catalog, s: seq<int>, t: seq<int>, id: string)
    ensures TotalWeight(c, s + t) == TotalWeight(c, s) + TotalWeight(c, t)
    ensures WeightFor(c, s + t, id) == WeightFor(c, s, id) + WeightFor(c, t, id)
  {
    if t == [] {
      assert s + t == s;
    } else {
      assert (s + t)[..|s + t| - 1] == s + t[..|t| - 1];
      TotalsConcat(c, s, t[..|t| - 1], id);
    }
  }

  lemma {:induction false} TotalsInsert(c: Catalog, x: int, s: seq<int>, less: (int, int) -> bool, id: string)
    ensures TotalWeight(c, Insert(x, s, less)) == TotalWeight(c, [x]) + TotalWeight(c, s)
    ensures WeightFor(c, Insert(x, s, less), id) == WeightFor(c, [x], id) + WeightFor(c, s, id)
  {
    if s == [] {
    } else if less(s[0], x) {
      TotalsInsert(c, x, s[1..], less, id);
      TotalsConcat(c, [s[0]], Insert(x, s[1..], less), id);
      TotalsConcat(c, [s[0]], s[1..], id);
      assert s == [s[0]] + s[1..];
    } else {
      TotalsConcat(c, [x], s, id);
    }
  }

  lemma {:induction false} TotalsSort(c: Catalog, s: seq<int>, less: (int, int) -> bool, id: string)
    ensures TotalWeight(c, Sort(s, less)) == TotalWeight(c, s)
    ensures WeightFor(c, Sort(s, less), id) == WeightFor(c, s, id)
  {
    if s != [] {
      TotalsSort(c, s[1..], less, id);
      TotalsInsert(c, s[0], Sort(s[1..], less), less, id);
      TotalsConcat(c, [s[0]], s[1..], id);
      assert s == [s[0]] + s[1..];
    }
  }

  /** A non-empty list of distinct valid indexes whose accounts have distinct, non-empty ids. */
  predicate Roster(c: Catalog, s: seq<int>) {
    && s != []
    && (forall a :: 0 <= a < |s| ==> 0 <= s[a] < |c.accounts| && IdAt(c, s[a]) != "")
    && (forall a, b :: 0 <= a < b < |s| ==> IdAt(c, s[a]) != IdAt(c, s[b]))
  }

  function RosterWeights(c: Catalog, s: seq<int>): (w: seq<int>)
    ensures |w| == |s|
  {
    seq(|s|, a requires 0 <= a < |s| => WeightAt(c, s[a]))
  }

  lemma {:induction false} RosterTotals(c: Catalog, s: seq<int>)
    requires forall a :: 0 <= a < |s| ==> 0 <= s[a] < |c.accounts|
    ensures TotalWeight(c, s) == RR.Sum(RosterWeights(c, s))
  {
    if s != [] {
      assert s == [s[0]] + s[1..];
      TotalsConcat(c, [s[0]], s[1..], "");
      RosterTotals(c, s[1..]);
      assert RosterWeights(c, s)[1..] == RosterWeights(c, s[1..]);
    }
  }

  lemma {:induction false} RosterWeightFor(c: Catalog, s: seq<int>, id: string)
    requires forall a :: 0 <= a < |s| ==> 0 <= s[a] < |c.accounts|
    requires forall a, b :: 0 <= a < b < |s| ==> IdAt(c, s[a]) != IdAt(c, s[b])
    ensures forall a :: 0 <= a < |s| && IdAt(c, s[a]) == id ==> WeightFor(c, s, id) == WeightAt(c, s[a])
    ensures (forall a :: 0 <= a < |s| ==> IdAt(c, s[a]) != id) ==> WeightFor(c, s, id) == 0
  {
    if s != [] {
      RosterWeightFor(c, s[..|s| - 1], id);
    }
  }

  ghost function NextScores(c: Catalog, s: seq<int>, q: Query, m: map<string, int>): map<string, int>
  {
    Commit(c, m, IdAt(c, Head(c, s, q, m)), Order(c, s, q, m, 0), q.mode)
  }

  ghost function Head(c: Catalog, s: seq<int>, q: Query, m: map<string, int>): int
  {
    if |Order(c, s, q, m, 0)| > 0 then Order(c, s, q, m, 0)[0] else -1
  }

  /** A run: the scores before each pick and after the last one, and the roster positions picked. */
  datatype Trace = Trace(scores: seq<map<string, int>>, picks: seq<nat>)

  /** One pick: the head of the order is taken and committed. */
  ghost predicate PickStep(c: Catalog, s: seq<int>, q: Query, m: map<string, int>, p: nat, m': map<string, int>) {
    p < |s| && s[p] == Head(c, s, q, m) && m' == NextScores(c, s, q, m)
  }

  ghost predicate IsRun(c: Catalog, s: seq<int>, q: Query, r: Trace) {
    && |r.scores| == |r.picks| + 1
    && forall t :: 0 <= t < |r.picks| ==> PickStep(c, s, q, r.scores[t], r.picks[t], r.scores[t + 1])
  }

  ghost function RosterScores(c: Catalog, s: seq<int>, m: map<string, int>): (r: seq<int>)
    ensures |r| == |s|
  {
    seq(|s|, a requires 0 <= a < |s| => Lookup(m, IdAt(c, s[a])))
  }

  /** A commit against any reordering of the roster acts on its scores as one abstract step. */
  lemma {:induction false} CommitPointwise(c: Catalog, s: seq<int>, m: map<string, int>, order: seq<int>, p: nat)
    requires Roster(c, s) && order != [] && p < |s|
    requires TotalWeight(c, order) == RR.Sum(RosterWeights(c, s))
    requires forall a :: 0 <= a < |s| ==> WeightFor(c, order, IdAt(c, s[a])) == WeightAt(c, s[a])
    ensures RosterScores(c, s, Commit(c, m, IdAt(c, s[p]), order, Weighted))
            == RR.Step(RosterScores(c, s, m), RosterWeights(c, s), p)
  {
    var w := RosterWeights(c, s);
    assert RR.Weights(w);
    RR.SumPositive(w);
    var m' := Commit(c, m, IdAt(c, s[p]), order, Weighted);
    forall a | 0 <= a < |s|
      ensures RosterScores(c, s, m')[a] == RR.Step(RosterScores(c, s, m), w, p)[a]
    {
      AddWeightsPointwise(c, order, m, IdAt(c, s[a]));
    }
  }

  /** A pick of the pool is a top pick and one step of the abstract scheme. */
  lemma {:induction false} PickIsTopStep(c: Catalog, s: seq<int>, q: Query, m: map<string, int>, p: nat,
      m': map<string, int>)
    requires Roster(c, s) && q.mode.Weighted? && PickStep(c, s, q, m, p, m')
    ensures RR.Top(RosterScores(c, s, m), RosterWeights(c, s), p)
    ensures RosterScores(c, s, m') == RR.Step(RosterScores(c, s, m), RosterWeights(c, s), p)
  {
    WeightedHeadIsTop(c, s, q, m, 0);
    SkipIsStep(c, s, q, m, p, m');
  }

  lemma {:induction false} SameScoresSameSort(c: Catalog, s: seq<int>, q: Query, m: map<string, int>, n: map<string,
      int>)
    requires q.mode.Weighted?
    requires forall a :: 0 <= a < |s| ==> 0 <= s[a] < |c.accounts| && Lookup(m, IdAt(c, s[a])) == Lookup(n,
        IdAt(c, s[a]))
    ensures Sort(s, Before(c, q.model, q.mode, m)) == Sort(s, Before(c, q.model, q.mode, n))
  {
    if s != [] {
      SameScoresSameSort(c, s[1..], q, m, n);
      var rest := Sort(s[1..], Before(c, q.model, q.mode, m));
      forall k | 0 <= k < |rest| ensures rest[k] in s[1..] {
        assert rest[k] in multiset(rest);
      }
      SameScoresSameInsert(c, s[0], rest, q, m, n);
    }
  }

  lemma {:induction false} SameScoresSameInsert(c: Catalog, x: int, s: seq<int>, q: Query, m: map<string, int>,
      n: map<string, int>)
    requires q.mode.Weighted?
    requires 0 <= x < |c.accounts| && Lookup(m, IdAt(c, x)) == Lookup(n, IdAt(c, x))
    requires forall a :: 0 <= a < |s| ==> 0 <= s[a] < |c.accounts| && Lookup(m, IdAt(c, s[a])) == Lookup(n,
        IdAt(c, s[a]))
    ensures Insert(x, s, Before(c, q.model, q.mode, m)) == Insert(x, s, Before(c, q.model, q.mode, n))
  {
    if s != [] {
      SameScoresSameInsert(c, x, s[1..], q, m, n);
    }
  }

  lemma {:induction false} SameScoresSameHead(c: Catalog, s: seq<int>, q: Query, m: map<string, int>, n: map<string,
      int>)
    requires Roster(c, s) && q.mode.Weighted?
    requires RosterScores(c, s, m) == RosterScores(c, s, n)
    ensures Head(c, s, q, m) == Head(c, s, q, n)
  {
    forall a | 0 <= a < |s| ensures Lookup(m, IdAt(c, s[a])) == Lookup(n, IdAt(c, s[a])) {
      assert RosterScores(c, s, m)[a] == RosterScores(c, s, n)[a];
    }
    SameScoresSameSort(c, s, q, m, n);
  }

  /** The pool's run is a top-picking run of the abstract scheme. */
  lemma {:induction false} RunIsTopRun(c: Catalog, s: seq<int>, q: Query, r: Trace, t: nat)
    requires Roster(c, s) && q.mode.Weighted? && IsRun(c, s, q, r) && t <= |r.picks|
    requires RosterScores(c, s, r.scores[0]) == seq(|s|, _ => 0)
    ensures RR.InRange(r.picks[..t], |s|)
    ensures RR.TopRun(RosterWeights(c, s), r.picks[..t])
    ensures RR.Scores(RosterWeights(c, s), r.picks[..t]) == RosterScores(c, s, r.scores[t])
  {
    if t > 0 {
      RunIsTopRun(c, s, q, r, t - 1);
      StepAt(c, s, q, r, t - 1);
      PickIsTopStep(c, s, q, r.scores[t - 1], r.picks[t - 1], r.scores[t]);
      OneMorePick(RosterWeights(c, s), r.picks, t, RosterScores(c, s, r.scores[t - 1]),
          RosterScores(c, s, r.scores[t]));
    }
  }

  lemma {:induction false} OneMorePick(w: seq<int>, picks: seq<nat>, t: nat, before: seq<int>, after: seq<int>)
    requires 0 < t <= |picks| && RR.InRange(picks[..t - 1], |w|) && RR.TopRun(w, picks[..t - 1])
    requires RR.Scores(w, picks[..t - 1]) == before && RR.Top(before, w, picks[t - 1])
        && after == RR.Step(before, w, picks[t - 1])
    ensures RR.InRange(picks[..t], |w|) && RR.TopRun(w, picks[..t]) && RR.Scores(w, picks[..t]) == after
  {
    RR.TopRunExtend(w, picks[..t - 1], picks[t - 1]);
    assert picks[..t] == picks[..t - 1] + [picks[t - 1]];
  }

  lemma {:induction false} StepAt(c: Catalog, s: seq<int>, q: Query, r: Trace, i: nat)
    requires IsRun(c, s, q, r) && i < |r.picks|
    ensures PickStep(c, s, q, r.scores[i], r.picks[i], r.scores[i + 1])
  {
  }

  lemma {:induction false} SamePick(c: Catalog, s: seq<int>, q: Query, r: Trace, i: nat, j: nat)
    requires Roster(c, s) && q.mode.Weighted? && IsRun(c, s, q, r) && i < |r.picks| && j < |r.picks|
    requires RosterScores(c, s, r.scores[i]) == RosterScores(c, s, r.scores[j])
    ensures r.picks[i] == r.picks[j]
  {
    SameScoresSameHead(c, s, q, r.scores[i], r.scores[j]);
    assert PickStep(c, s, q, r.scores[i], r.picks[i], r.scores[i + 1]);
    assert PickStep(c, s, q, r.scores[j], r.picks[j], r.scores[j + 1]);
  }

  lemma {:induction false} RunDeterministic(c: Catalog, s: seq<int>, q: Query, r: Trace)
    requires Roster(c, s) && q.mode.Weighted? && IsRun(c, s, q, r)
    requires RosterScores(c, s, r.scores[0]) == seq(|s|, _ => 0)
    requires RR.InRange(r.picks, |s|)
    ensures RR.Deterministic(RosterWeights(c, s), r.picks)
  {
    var w := RosterWeights(c, s);
    forall i: nat, j: nat | i < |r.picks| && j < |r.picks| && RR.SameScores(w, r.picks, i, j)
      ensures r.picks[i] == r.picks[j]
    {
      RunIsTopRun(c, s, q, r, i);
      RunIsTopRun(c, s, q, r, j);
      SamePick(c, s, q, r, i, j);
    }
  }

  /**
   * Exact fairness. With a fixed eligible roster, zero scores at the start and the head always taken,
   * any window of total-weight many consecutive picks chooses each account exactly its effective weight
   * times and leaves every score as it was; a window that starts at zero scores returns them to zero;
   * and no score ever falls to minus the total weight.
   */
  lemma {:induction false} ExactFairness(c: Catalog, s: seq<int>, q: Query, r: Trace, t: nat, total: nat)
    requires Roster(c, s) && q.mode.Weighted? && IsRun(c, s, q, r)
    requires RosterScores(c, s, r.scores[0]) == seq(|s|, _ => 0)
    requires total == RR.Sum(RosterWeights(c, s)) && t + total <= |r.picks|
    ensures forall a: nat :: a < |s| ==>
      Count<nat>(r.picks[t..t + total], a) == EffectiveWeight(c.accounts[s[a]].weight)
    ensures RosterScores(c, s, r.scores[t + total]) == RosterScores(c, s, r.scores[t])
    ensures forall k :: 0 <= k <= |r.picks| ==>
      forall a :: 0 <= a < |s| ==> RosterScores(c, s, r.scores[k])[a] + total > 0
  {
    RunIsFair(c, s, q, r);
    WindowWeights(c, s, r.picks, t, total);
    ScoresReturn(c, s, q, r, t, total);
    forall k | 0 <= k <= |r.picks|
      ensures forall a :: 0 <= a < |s| ==> RosterScores(c, s, r.scores[k])[a] + total > 0
    {
      RunBounded(c, s, q, r, k);
    }
  }

  lemma {:induction false} WindowWeights(c: Catalog, s: seq<int>, picks: seq<nat>, t: nat, total: nat)
    requires FairRun(RosterWeights(c, s), picks) && InCatalog(c, s)
    requires total == RR.Sum(RosterWeights(c, s)) && t + total <= |picks|
    ensures forall a: nat :: a < |s| ==> Count<nat>(picks[t..t + total], a) == EffectiveWeight(c.accounts[s[a]].weight)
  {
    forall a: nat | a < |s| ensures Count<nat>(picks[t..t + total], a) == EffectiveWeight(c.accounts[s[a]].weight) {
      RR.WindowCount(RosterWeights(c, s), picks, t, total, a);
    }
  }

  lemma {:induction false} ScoresReturn(c: Catalog, s: seq<int>, q: Query, r: Trace, t: nat, total: nat)
    requires Roster(c, s) && q.mode.Weighted? && IsRun(c, s, q, r)
    requires RosterScores(c, s, r.scores[0]) == seq(|s|, _ => 0)
    requires total == RR.Sum(RosterWeights(c, s)) && t + total <= |r.picks|
    ensures RosterScores(c, s, r.scores[t + total]) == RosterScores(c, s, r.scores[t])
  {
    RunIsFair(c, s, q, r);
    RunScores(c, s, q, r, t);
    RunScores(c, s, q, r, t + total);
    PeriodicScores(RosterWeights(c, s), r.picks, t, total, RosterScores(c, s, r.scores[t]),
        RosterScores(c, s, r.scores[t + total]));
  }

  lemma {:induction false} PeriodicScores(w: seq<int>, picks: seq<nat>, t: nat, total: nat, before: seq<int>,
      after: seq<int>)
    requires FairRun(w, picks) && total == RR.Sum(w) && t + total <= |picks|
    requires RR.Scores(w, picks[..t]) == before && RR.Scores(w, picks[..t + total]) == after
    ensures after == before
  {
    RR.Periodic(w, picks, t, total);
  }

  /** A run of the abstract scheme that always picks the top and decides by the scores alone. */
  ghost predicate FairRun(w: seq<int>, picks: seq<nat>) {
    RR.Weights(w) && RR.InRange(picks, |w|) && RR.TopRun(w, picks) && RR.Deterministic(w, picks)
  }

  lemma {:induction false} RunIsFair(c: Catalog, s: seq<int>, q: Query, r: Trace)
    requires Roster(c, s) && q.mode.Weighted? && IsRun(c, s, q, r)
    requires RosterScores(c, s, r.scores[0]) == seq(|s|, _ => 0)
    ensures FairRun(RosterWeights(c, s), r.picks)
  {
    assert r.picks[..|r.picks|] == r.picks;
    RunIsTopRun(c, s, q, r, |r.picks|);
    RunDeterministic(c, s, q, r);
  }

  lemma {:induction false} RunScores(c: Catalog, s: seq<int>, q: Query, r: Trace, t: nat)
    requires Roster(c, s) && q.mode.Weighted? && IsRun(c, s, q, r) && t <= |r.picks|
    requires RosterScores(c, s, r.scores[0]) == seq(|s|, _ => 0)
    ensures RR.InRange(r.picks[..t], |s|) && RR.Scores(RosterWeights(c, s), r.picks[..t]) == RosterScores(c, s,
        r.scores[t])
  {
    RunIsTopRun(c, s, q, r, t);
  }

  lemma {:induction false} RunBounded(c: Catalog, s: seq<int>, q: Query, r: Trace, k: nat)
    requires Roster(c, s) && q.mode.Weighted? && IsRun(c, s, q, r) && k <= |r.picks|
    requires RosterScores(c, s, r.scores[0]) == seq(|s|, _ => 0)
    ensures forall a :: 0 <= a < |s| ==> RosterScores(c, s, r.scores[k])[a] + RR.Sum(RosterWeights(c, s)) > 0
  {
    RunIsTopRun(c, s, q, r, k);
    assert RR.Weights(RosterWeights(c, s));
    RR.ScoresBounded(RosterWeights(c, s), r.picks[..k]);
  }

  // ------------------------------------------------------ busy accounts skipped

  /** One pick by a caller that skips busy accounts: any roster position may be the one committed. */
  ghost predicate SkipStep(c: Catalog, s: seq<int>, q: Query, m: map<string, int>, p: nat, m': map<string, int>) {
    p < |s| && m' == Commit(c, m, IdAt(c, s[p]), Order(c, s, q, m, 0), q.mode)
  }

  ghost predicate IsSkippingRun(c: Catalog, s: seq<int>, q: Query, r: Trace) {
    && |r.scores| == |r.picks| + 1
    && forall t :: 0 <= t < |r.picks| ==> SkipStep(c, s, q, r.scores[t], r.picks[t], r.scores[t + 1])
  }

  lemma {:induction false} SkipIsStep(c: Catalog, s: seq<int>, q: Query, m: map<string, int>, p: nat, m': map<string,
      int>)
    requires Roster(c, s) && q.mode.Weighted? && SkipStep(c, s, q, m, p, m')
    ensures RosterScores(c, s, m') == RR.Step(RosterScores(c, s, m), RosterWeights(c, s), p)
  {
    var less := Before(c, q.model, q.mode, m);
    forall a | 0 <= a < |s| ensures WeightFor(c, Sort(s, less), IdAt(c, s[a])) == WeightAt(c, s[a]) {
      TotalsSort(c, s, less, IdAt(c, s[a]));
      RosterWeightFor(c, s, IdAt(c, s[a]));
    }
    TotalsSort(c, s, less, "");
    RosterTotals(c, s);
    SortNonEmpty(s, less);
    CommitPointwise(c, s, m, Sort(s, less), p);
  }

  lemma {:induction false} SortNonEmpty(s: seq<int>, less: (int, int) -> bool)
    requires s != []
    ensures Sort(s, less) != []
  {
    assert multiset(Sort(s, less)) == multiset(s);
    assert s[0] in multiset(s);
  }

  lemma {:induction false} SkipAt(c: Catalog, s: seq<int>, q: Query, r: Trace, i: nat)
    requires IsSkippingRun(c, s, q, r) && i < |r.picks|
    ensures SkipStep(c, s, q, r.scores[i], r.picks[i], r.scores[i + 1])
  {
  }

  lemma {:induction false} OneMoreSkip(w: seq<int>, picks: seq<nat>, t: nat, before: seq<int>, after: seq<int>)
    requires 0 < t <= |picks| && RR.InRange(picks[..t - 1], |w|) && picks[t - 1] < |w|
    requires RR.Scores(w, picks[..t - 1]) == before && |before| == |w| && after == RR.Step(before, w, picks[t - 1])
    ensures RR.InRange(picks[..t], |w|) && RR.Scores(w, picks[..t]) == after
  {
    assert picks[..t] == picks[..t - 1] + [picks[t - 1]];
    assert picks[..t][..t - 1] == picks[..t - 1];
  }

  lemma {:induction false} FollowSteps(w: seq<int>, picks: seq<nat>, scores: seq<seq<int>>, t: nat)
    requires |scores| == |picks| + 1 && t <= |picks| && scores[0] == seq(|w|, _ => 0)
    requires forall i :: 0 <= i < |picks| ==>
      picks[i] < |w| && |scores[i]| == |w| && scores[i + 1] == RR.Step(scores[i], w, picks[i])
    ensures RR.InRange(picks[..t], |w|) && RR.Scores(w, picks[..t]) == scores[t]
  {
    if t > 0 {
      FollowSteps(w, picks, scores, t - 1);
      OneMoreSkip(w, picks, t, scores[t - 1], scores[t]);
    }
  }

  lemma {:induction false} SkippingScores(c: Catalog, s: seq<int>, q: Query, r: Trace, t: nat)
    requires Roster(c, s) && q.mode.Weighted? && IsSkippingRun(c, s, q, r) && t <= |r.picks|
    requires RosterScores(c, s, r.scores[0]) == seq(|s|, _ => 0)
    ensures RR.InRange(r.picks[..t], |s|)
    ensures RR.Scores(RosterWeights(c, s), r.picks[..t]) == RosterScores(c, s, r.scores[t])
  {
    var w := RosterWeights(c, s);
    var scores := seq(|r.scores|, i requires 0 <= i < |r.scores| => RosterScores(c, s, r.scores[i]));
    forall i | 0 <= i < |r.picks|
      ensures r.picks[i] < |w| && |scores[i]| == |w| && scores[i + 1] == RR.Step(scores[i], w, r.picks[i])
    {
      SkipAt(c, s, q, r, i);
      SkipIsStep(c, s, q, r.scores[i], r.picks[i], r.scores[i + 1]);
    }
    FollowSteps(w, r.picks, scores, t);
  }

  /** The pick at k goes to an account that has not yet had its effective weight in the window that starts at t. */
  predicate WithinShare(c: Catalog, s: seq<int>, picks: seq<nat>, t: nat, k: nat)
    requires InCatalog(c, s) && RR.InRange(picks, |s|) && t <= k < |picks|
  {
    Count<nat>(picks[t..k], picks[k]) < EffectiveWeight(c.accounts[s[picks[k]]].weight)
  }

  lemma {:induction false} SkippingInRange(c: Catalog, s: seq<int>, q: Query, r: Trace)
    requires Roster(c, s) && IsSkippingRun(c, s, q, r)
    ensures InCatalog(c, s) && RR.InRange(r.picks, |s|)
  {
    forall i | 0 <= i < |r.picks| ensures r.picks[i] < |s| {
      SkipAt(c, s, q, r, i);
    }
  }

  /**
   * When busy heads are skipped, a window of total-weight many picks still chooses each account exactly its
   * effective weight times exactly if no pick goes to an account that already had its weight in the window;
   * and exactly then it leaves every score as it was.
   */
  lemma {:induction false} SkippingFairIff(c: Catalog, s: seq<int>, q: Query, r: Trace, t: nat, total: nat)
    requires Roster(c, s) && q.mode.Weighted? && IsSkippingRun(c, s, q, r)
    requires RosterScores(c, s, r.scores[0]) == seq(|s|, _ => 0)
    requires total == RR.Sum(RosterWeights(c, s)) && t + total <= |r.picks|
    ensures InCatalog(c, s) && RR.InRange(r.picks, |s|)
    ensures (forall a: nat :: a < |s| ==>
              Count<nat>(r.picks[t..t + total], a) == EffectiveWeight(c.accounts[s[a]].weight))
       <==> (forall k :: t <= k < t + total ==> WithinShare(c, s, r.picks, t, k))
    ensures (forall k :: t <= k < t + total ==> WithinShare(c, s, r.picks, t, k))
       <==> RosterScores(c, s, r.scores[t + total]) == RosterScores(c, s, r.scores[t])
  {
    SkippingInRange(c, s, q, r);
    FairIffShares(c, s, r.picks, t, total);
    SharesIffReturn(c, s, q, r, t, total);
  }

  lemma {:induction false} SharesIffReturn(c: Catalog, s: seq<int>, q: Query, r: Trace, t: nat, total: nat)
    requires Roster(c, s) && q.mode.Weighted? && IsSkippingRun(c, s, q, r)
    requires InCatalog(c, s) && RR.InRange(r.picks, |s|)
    requires RosterScores(c, s, r.scores[0]) == seq(|s|, _ => 0)
    requires total == RR.Sum(RosterWeights(c, s)) && t + total <= |r.picks|
    ensures (forall k :: t <= k < t + total ==> WithinShare(c, s, r.picks, t, k))
       <==> RosterScores(c, s, r.scores[t + total]) == RosterScores(c, s, r.scores[t])
  {
    SkippingScores(c, s, q, r, t);
    SkippingScores(c, s, q, r, t + total);
    SharesIffSame(c, s, r.picks, t, total, RosterScores(c, s, r.scores[t]), RosterScores(c, s, r.scores[t + total]));
  }

  lemma {:induction false} SharesIffSame(
      c: Catalog, s: seq<int>, picks: seq<nat>, t: nat, total: nat, before: seq<int>, after: seq<int>)
    requires Roster(c, s) && InCatalog(c, s) && RR.InRange(picks, |s|)
    requires total == RR.Sum(RosterWeights(c, s)) && t + total <= |picks|
    requires RR.Scores(RosterWeights(c, s), picks[..t]) == before
    requires RR.Scores(RosterWeights(c, s), picks[..t + total]) == after
    ensures (forall k :: t <= k < t + total ==> WithinShare(c, s, picks, t, k)) <==> after == before
  {
    FairIffSame(c, s, picks, t, total);
    FairIffShares(c, s, picks, t, total);
  }

  lemma {:induction false} FairIffShares(c: Catalog, s: seq<int>, picks: seq<nat>, t: nat, total: nat)
    requires Roster(c, s) && InCatalog(c, s) && RR.InRange(picks, |s|)
    requires total == RR.Sum(RosterWeights(c, s)) && t + total <= |picks|
    ensures (forall a: nat :: a < |s| ==>
              Count<nat>(picks[t..t + total], a) == EffectiveWeight(c.accounts[s[a]].weight))
       <==> (forall k :: t <= k < t + total ==> WithinShare(c, s, picks, t, k))
  {
    var w := RosterWeights(c, s);
    assert RR.Weights(w);
    RR.FairIffWithinShares(w, picks, t, total);
    assert forall a: nat :: a < |s| ==> w[a] == EffectiveWeight(c.accounts[s[a]].weight);
    assert forall k :: t <= k < t + total ==> (WithinShare(c, s, picks, t, k) <==> RR.WithinShare(w, picks, t, k));
  }

  /** Whether a pick stays within its share can be read off the pool's scores just before it is committed. */
  lemma {:induction false} ShareByScore(c: Catalog, s: seq<int>, q: Query, r: Trace, t: nat, k: nat)
    requires Roster(c, s) && q.mode.Weighted? && IsSkippingRun(c, s, q, r) && t <= k < |r.picks|
    requires RosterScores(c, s, r.scores[0]) == seq(|s|, _ => 0)
    ensures InCatalog(c, s) && RR.InRange(r.picks, |s|)
    ensures WithinShare(c, s, r.picks, t, k)
       <==> ScoreAllows(c, s, r.picks[k], k - t, RosterScores(c, s, r.scores[t]), RosterScores(c, s, r.scores[k]))
  {
    SkippingInRange(c, s, q, r);
    SkippingScores(c, s, q, r, t);
    SkippingScores(c, s, q, r, k);
    AllowedIffWithinShare(c, s, r.picks, t, k, RosterScores(c, s, r.scores[t]), RosterScores(c, s, r.scores[k]));
  }

  /** So many picks into a window, the account's score has not yet fallen by its whole share of the window. */
  predicate ScoreAllows(c: Catalog, s: seq<int>, p: nat, elapsed: nat, before: seq<int>, now: seq<int>)
    requires InCatalog(c, s) && p < |s| && |before| == |s| == |now|
  {
    now[p] - before[p] > (elapsed - RR.Sum(RosterWeights(c, s))) * EffectiveWeight(c.accounts[s[p]].weight)
  }

  lemma {:induction false} AllowedIffWithinShare(
      c: Catalog, s: seq<int>, picks: seq<nat>, t: nat, k: nat, before: seq<int>, now: seq<int>)
    requires Roster(c, s) && InCatalog(c, s) && RR.InRange(picks, |s|) && t <= k < |picks|
    requires |before| == |s| == |now|
    requires RR.Scores(RosterWeights(c, s), picks[..t]) == before
    requires RR.Scores(RosterWeights(c, s), picks[..k]) == now
    ensures WithinShare(c, s, picks, t, k) <==> ScoreAllows(c, s, picks[k], k - t, before, now)
  {
    var w := RosterWeights(c, s);
    assert RR.Weights(w);
    ShareInScores(w, picks, t, k, before, now);
    assert w[picks[k]] == EffectiveWeight(c.accounts[s[picks[k]]].weight);
  }

  lemma {:induction false} ShareInScores(
      w: seq<int>, picks: seq<nat>, t: nat, k: nat, before: seq<int>, now: seq<int>)
    requires RR.Weights(w) && RR.InRange(picks, |w|) && t <= k < |picks| && |before| == |w| == |now|
    requires RR.Scores(w, picks[..t]) == before && RR.Scores(w, picks[..k]) == now
    ensures var p := picks[k];
      Count<nat>(picks[t..k], p) < w[p] <==> now[p] - before[p] > (k - t - RR.Sum(w)) * w[p]
  {
    RR.WithinShareByScore(w, picks, t, k);
  }

  lemma {:induction false} FairIffSame(c: Catalog, s: seq<int>, picks: seq<nat>, t: nat, total: nat)
    requires Roster(c, s) && RR.InRange(picks, |s|)
    requires total == RR.Sum(RosterWeights(c, s)) && t + total <= |picks|
    ensures (forall a: nat :: a < |s| ==>
              Count<nat>(picks[t..t + total], a) == EffectiveWeight(c.accounts[s[a]].weight))
       <==> RR.SameScores(RosterWeights(c, s), picks, t + total, t)
  {
    var w := RosterWeights(c, s);
    assert RR.Weights(w);
    RR.WindowFairIff(w, picks, t, total);
    assert forall a: nat :: a < |s| ==> w[a] == EffectiveWeight(c.accounts[s[a]].weight);
  }

  lemma {:induction false} StuckRun(c: Catalog, s: seq<int>, q: Query, p: nat, n: nat) returns (r: Trace)
    requires p < |s|
    ensures IsSkippingRun(c, s, q, r) && |r.picks| == n && r.scores[0] == map[]
    ensures forall i :: 0 <= i < n ==> r.picks[i] == p
  {
    if n == 0 {
      r := Trace([map[]], []);
    } else {
      var shorter := StuckRun(c, s, q, p, n - 1);
      var m := shorter.scores[n - 1];
      r := Trace(shorter.scores + [Commit(c, m, IdAt(c, s[p]), Order(c, s, q, m, 0), q.mode)], shorter.picks + [p]);
      forall t | 0 <= t < n ensures SkipStep(c, s, q, r.scores[t], r.picks[t], r.scores[t + 1]) {
        if t < n - 1 {
          SkipAt(c, s, q, shorter, t);
        }
      }
    }
  }

  lemma {:induction false} CountAll(picks: seq<nat>, p: nat)
    requires forall i :: 0 <= i < |picks| ==> picks[i] == p
    ensures Count<nat>(picks, p) == |picks|
  {
    if picks != [] {
      CountAll(picks[..|picks| - 1], p);
    }
  }

  /** Skipping does lose fairness: while all but one of several accounts are busy, that one gets the whole window. */
  lemma {:induction false} SkippedHeadsLoseFairness(c: Catalog, s: seq<int>, q: Query, p: nat) returns (r: Trace)
    requires Roster(c, s) && q.mode.Weighted? && |s| >= 2 && p < |s|
    ensures IsSkippingRun(c, s, q, r) && r.scores[0] == map[] && |r.picks| == RR.Sum(RosterWeights(c, s))
    ensures Count<nat>(r.picks, p) > EffectiveWeight(c.accounts[s[p]].weight)
  {
    var w := RosterWeights(c, s);
    OneBelowSum(w, p);
    r := StuckRun(c, s, q, p, RR.Sum(w));
    CountAll(r.picks, p);
  }

  lemma {:induction false} OneBelowSum(w: seq<int>, p: nat)
    requires RR.Weights(w) && |w| >= 2 && p < |w|
    ensures RR.Sum(w) > w[p]
  {
    RR.SumPositive(w[1..]);
    if p > 0 && |w| > 2 {
      OneBelowSum(w[1..], p - 1);
    } else if p > 0 {
      assert w[1..][1..] == [];
    }
  }

  /** Unique ids turn the eligible list of any query into a roster. */
  lemma {:induction false} EligibleIsRoster(c: Catalog, q: Query)
    requires forall i, j :: 0 <= i < j < |c.accounts| ==> c.accounts[i].id != c.accounts[j].id
    requires forall i :: 0 <= i < |c.accounts| ==> c.accounts[i].id != ""
    requires Eligible(c, q) != []
    ensures Roster(c, Eligible(c, q))
  {
    EligibleExact(c, q);
    var s := Eligible(c, q);
    forall a | 0 <= a < |s| ensures 0 <= s[a] < |c.accounts| {
      assert s[a] in s;
    }
  }

  // ---------------------------------------------------------- balanced tiers

  lemma {:induction false} RemainderUnique(n: int, tier: nat, k: nat)
    requires tier > 0 && k < tier
    ensures (n * tier + k) % tier == k
  {
    var x := n * tier + k;
    var e := n - x / tier;
    assert x == tier * (x / tier) + x % tier;
    assert tier * e == n * tier - tier * (x / tier);
    RR.NegativeFactor(tier, e);
    RR.NegativeFactor(tier, -e);
    assert tier * -e == -(tier * e);
  }

  lemma {:induction false} CursorReaches(cursor: nat, tier: nat, k: nat, j: int)
    requires tier > 0 && k < tier
    requires j == k - cursor % tier || j == k - cursor % tier + tier
    ensures (cursor + j) % tier == k
  {
    var turns := cursor / tier;
    assert cursor == turns * tier + cursor % tier;
    if j == k - cursor % tier {
      RemainderUnique(turns, tier, k);
    } else {
      assert (turns + 1) * tier == turns * tier + tier;
      RemainderUnique(turns + 1, tier, k);
    }
  }

  lemma {:induction false} CursorsDiffer(x: nat, d: nat, tier: nat)
    requires 0 < d < tier
    ensures (x + d) % tier != x % tier
  {
    var k := x % tier;
    var turns := x / tier;
    assert x == turns * tier + k;
    if k + d < tier {
      RemainderUnique(turns, tier, k + d);
    } else {
      assert (turns + 1) * tier == turns * tier + tier;
      RemainderUnique(turns + 1, tier, k + d - tier);
    }
  }

  /** A run in balanced mode: each pick takes the head at the cursor and commits it; scores do not change. */
  ghost predicate IsBalancedRun(c: Catalog, s: seq<int>, q: Query, m: map<string, int>, cursors: seq<nat>,
      picks: seq<int>) {
    && |cursors| == |picks| + 1
    && forall t :: 0 <= t < |picks| ==> BalancedStep(c, s, q, m, cursors[t], picks[t], cursors[t + 1])
  }

  ghost predicate BalancedStep(c: Catalog, s: seq<int>, q: Query, m: map<string, int>, cursor: nat, pick: int,
      next: nat) {
    var order := Order(c, s, q, m, cursor);
    order != [] && pick == order[0] && next == CommitCursor(c, cursor, IdAt(c, pick), order, q.mode)
  }

  /** The accounts that share the highest priority. */
  ghost function LeadingTier(c: Catalog, sorted: seq<int>): (n: nat)
    requires sorted != [] && InCatalog(c, sorted)
    ensures 1 <= n <= |sorted|
  {
    TierEnd(c, sorted, 1)
  }

  /** The account of the leading tier whose turn it is. */
  ghost function TurnOf(c: Catalog, sorted: seq<int>, cursor: nat): int
    requires sorted != [] && InCatalog(c, sorted)
  {
    sorted[cursor % LeadingTier(c, sorted)]
  }

  lemma {:induction false} BalancedPick(c: Catalog, s: seq<int>, q: Query, m: map<string, int>, cursor: nat, pick: int,
      next: nat)
    requires Roster(c, s) && q.mode.Balanced? && BalancedStep(c, s, q, m, cursor, pick, next)
    ensures var sorted := Sort(s, Before(c, q.model, q.mode, m));
      sorted != [] && InCatalog(c, sorted) && pick == TurnOf(c, sorted, cursor) && next == cursor + 1
  {
    var less := Before(c, q.model, q.mode, m);
    SortInCatalog(c, s, less);
    SortNonEmpty(s, less);
    RotatedHead(c, Sort(s, less), cursor);
    NamedInRoster(c, s, Sort(s, less), cursor % LeadingTier(c, Sort(s, less)));
  }

  lemma {:induction false} RotatedHead(c: Catalog, sorted: seq<int>, cursor: nat)
    requires sorted != [] && InCatalog(c, sorted)
    ensures Rotated(c, sorted, cursor) != [] && Rotated(c, sorted, cursor)[0] == TurnOf(c, sorted, cursor)
  {
  }

  lemma {:induction false} NamedInRoster(c: Catalog, s: seq<int>, sorted: seq<int>, k: nat)
    requires Roster(c, s) && multiset(sorted) == multiset(s) && k < |sorted|
    ensures IdAt(c, sorted[k]) != ""
  {
    assert sorted[k] in multiset(sorted);
    var a :| 0 <= a < |s| && s[a] == sorted[k];
  }

  lemma {:induction false} BalancedAt(
    c: Catalog, s: seq<int>, q: Query, m: map<string, int>, cursors: seq<nat>, picks: seq<int>, t: nat)
    requires IsBalancedRun(c, s, q, m, cursors, picks) && t < |picks|
    ensures BalancedStep(c, s, q, m, cursors[t], picks[t], cursors[t + 1])
  {
  }

  lemma {:induction false} CountsUp(cursors: seq<nat>, t: nat)
    requires t < |cursors| && forall i :: 0 <= i < |cursors| - 1 ==> cursors[i + 1] == cursors[i] + 1
    ensures cursors[t] == cursors[0] + t
  {
    if t > 0 {
      CountsUp(cursors, t - 1);
      assert cursors[t - 1 + 1] == cursors[t - 1] + 1;
    }
  }

  lemma {:induction false} BalancedPickAt(
    c: Catalog, s: seq<int>, q: Query, m: map<string, int>, cursors: seq<nat>, picks: seq<int>, t: nat)
    requires Roster(c, s) && q.mode.Balanced? && IsBalancedRun(c, s, q, m, cursors, picks) && t < |picks|
    ensures var sorted := Sort(s, Before(c, q.model, q.mode, m));
      && sorted != [] && InCatalog(c, sorted) && picks[t] == TurnOf(c, sorted, cursors[t])
      && cursors[t + 1] == cursors[t] + 1
  {
    BalancedAt(c, s, q, m, cursors, picks, t);
    BalancedPick(c, s, q, m, cursors[t], picks[t], cursors[t + 1]);
  }

  /** The picks go round the leading tier. */
  ghost predicate TakesTurns(c: Catalog, sorted: seq<int>, cursors: seq<nat>, picks: seq<int>)
    requires sorted != [] && InCatalog(c, sorted)
  {
    && |cursors| == |picks| + 1
    && forall t :: 0 <= t < |picks| ==> cursors[t] == cursors[0] + t && picks[t] == TurnOf(c, sorted, cursors[t])
  }

  lemma {:induction false} BalancedTakesTurns(
    c: Catalog, s: seq<int>, q: Query, m: map<string, int>, cursors: seq<nat>, picks: seq<int>, sorted: seq<int>)
    requires Roster(c, s) && q.mode.Balanced? && IsBalancedRun(c, s, q, m, cursors, picks)
    requires sorted == Sort(s, Before(c, q.model, q.mode, m)) && sorted != [] && InCatalog(c, sorted)
    ensures TakesTurns(c, sorted, cursors, picks)
  {
    forall t | 0 <= t < |picks| ensures cursors[t + 1] == cursors[t] + 1 && picks[t] == TurnOf(c, sorted, cursors[t]) {
      BalancedPickAt(c, s, q, m, cursors, picks, t);
    }
    forall t | 0 <= t < |picks| ensures cursors[t] == cursors[0] + t {
      CountsUp(cursors, t);
    }
  }

  lemma {:induction false} RosterSortDistinct(c: Catalog, s: seq<int>, r: seq<int>, i: nat, j: nat)
    requires Roster(c, s) && multiset(r) == multiset(s) && i < j < |r|
    ensures r[i] != r[j]
  {
    CountInMultiset(s, r[i]);
    CountInMultiset(r, r[i]);
    OnceInRoster(c, s, r[i]);
    if r[i] == r[j] {
      TwiceCounted(r, i, j);
    }
  }

  lemma {:induction false} CountInMultiset(s: seq<int>, x: int)
    ensures multiset(s)[x] == Count<int>(s, x)
  {
    if s != [] {
      assert s == s[..|s| - 1] + [s[|s| - 1]];
      CountInMultiset(s[..|s| - 1], x);
    }
  }

  lemma {:induction false} OnceCounted(r: seq<int>, i: nat)
    requires i < |r|
    ensures Count<int>(r, r[i]) >= 1
  {
    if i < |r| - 1 {
      OnceCounted(r[..|r| - 1], i);
    }
  }

  lemma {:induction false} TwiceCounted(r: seq<int>, i: nat, j: nat)
    requires i < j < |r| && r[i] == r[j]
    ensures Count<int>(r, r[i]) >= 2
  {
    if j < |r| - 1 {
      TwiceCounted(r[..|r| - 1], i, j);
    } else {
      OnceCounted(r[..|r| - 1], i);
    }
  }

  lemma {:induction false} OnceInRoster(c: Catalog, s: seq<int>, x: int)
    requires forall a, b :: 0 <= a < b < |s| ==> IdAt(c, s[a]) != IdAt(c, s[b])
    ensures Count<int>(s, x) <= 1
    ensures Count<int>(s, x) > 0 ==> x in s
  {
    if s != [] {
      OnceInRoster(c, s[..|s| - 1], x);
    }
  }

  lemma {:induction false} TurnComes(c: Catalog, sorted: seq<int>, cursor: nat, k: nat) returns (j: nat)
    requires sorted != [] && InCatalog(c, sorted) && k < LeadingTier(c, sorted)
    ensures j < LeadingTier(c, sorted) && TurnOf(c, sorted, cursor + j) == sorted[k]
  {
    var tier := LeadingTier(c, sorted);
    var offset := cursor % tier;
    j := if k >= offset then k - offset else k - offset + tier;
    CursorReaches(cursor, tier, k, j);
  }

  lemma {:induction false} TurnsDiffer(c: Catalog, s: seq<int>, sorted: seq<int>, cursor: nat, d: nat)
    requires Roster(c, s) && multiset(sorted) == multiset(s) && sorted != [] && InCatalog(c, sorted)
    requires 0 < d < LeadingTier(c, sorted)
    ensures TurnOf(c, sorted, cursor) != TurnOf(c, sorted, cursor + d)
  {
    var tier := LeadingTier(c, sorted);
    CursorsDiffer(cursor, d, tier);
    var a, b := cursor % tier, (cursor + d) % tier;
    if a < b {
      RosterSortDistinct(c, s, sorted, a, b);
    } else {
      RosterSortDistinct(c, s, sorted, b, a);
    }
  }

  /**
   * In balanced mode every window of as many picks as the leading tier has accounts picks each of them exactly
   * once.
   */
  lemma {:induction false} BalancedWindow(
    c: Catalog, s: seq<int>, q: Query, m: map<string, int>, cursors: seq<nat>, picks: seq<int>, t: nat,
        sorted: seq<int>)
    requires Roster(c, s) && q.mode.Balanced? && IsBalancedRun(c, s, q, m, cursors, picks)
    requires sorted == Sort(s, Before(c, q.model, q.mode, m)) && sorted != [] && InCatalog(c, sorted)
    requires t + LeadingTier(c, sorted) <= |picks|
    ensures forall k :: 0 <= k < LeadingTier(c, sorted) ==>
      exists i :: t <= i < t + LeadingTier(c, sorted) && picks[i] == sorted[k]
    ensures forall i, j :: t <= i < j < t + LeadingTier(c, sorted) ==> picks[i] != picks[j]
  {
    BalancedTakesTurns(c, s, q, m, cursors, picks, sorted);
    forall k | 0 <= k < LeadingTier(c, sorted)
      ensures exists i :: t <= i < t + LeadingTier(c, sorted) && picks[i] == sorted[k]
    {
      TurnInWindow(c, sorted, cursors, picks, t, k);
    }
    forall i, j | t <= i < j < t + LeadingTier(c, sorted) ensures picks[i] != picks[j] {
      PicksDiffer(c, s, sorted, cursors, picks, i, j);
    }
  }

  lemma {:induction false} TurnInWindow(c: Catalog, sorted: seq<int>, cursors: seq<nat>, picks: seq<int>, t: nat,
      k: nat)
    requires sorted != [] && InCatalog(c, sorted) && TakesTurns(c, sorted, cursors, picks)
    requires t + LeadingTier(c, sorted) <= |picks| && k < LeadingTier(c, sorted)
    ensures exists i :: t <= i < t + LeadingTier(c, sorted) && picks[i] == sorted[k]
  {
    var j := TurnComes(c, sorted, cursors[t], k);
    assert cursors[t + j] == cursors[t] + j;
    assert picks[t + j] == sorted[k];
  }

  lemma {:induction false} PicksDiffer(c: Catalog, s: seq<int>, sorted: seq<int>, cursors: seq<nat>, picks: seq<int>,
      i: nat, j: nat)
    requires Roster(c, s) && multiset(sorted) == multiset(s) && sorted != [] && InCatalog(c, sorted)
    requires TakesTurns(c, sorted, cursors, picks) && i < j < |picks| && j - i < LeadingTier(c, sorted)
    ensures picks[i] != picks[j]
  {
    TurnsDiffer(c, s, sorted, cursors[i], j - i);
    assert cursors[j] == cursors[i] + (j - i);
  }

  // ------------------------------------------------------------ the pool

  predicate FallbackEligible(c: Catalog, q: Query, i: int)
    requires 0 <= i < |c.accounts|
  {
    var a := c.accounts[i];
    && a.id !in q.excluded
    && !QuotaBlocked(a, q.allowOverUsage)
    && (TokenNeedsRefresh(a, q) ==> a.hasRefreshToken && !RefreshFailing(c, a.id, q.now))
  }

  predicate AllCooling(c: Catalog, q: Query, n: nat)
    requires n <= |c.accounts|
  {
    forall i :: 0 <= i < n && FallbackEligible(c, q, i) ==> c.accounts[i].id in c.cooldowns
  }

  /** With nothing selectable: the first account not cooling at all, else the one that recovers first. */
  ghost predicate IsFallback(c: Catalog, q: Query, n: nat, pick: Option<int>)
    requires n <= |c.accounts|
  {
    match pick
    case None => forall i :: 0 <= i < n ==> !FallbackEligible(c, q, i)
    case Some(p) =>
      && 0 <= p < n && FallbackEligible(c, q, p)
      && (c.accounts[p].id !in c.cooldowns ==> AllCooling(c, q, p))
      && (c.accounts[p].id in c.cooldowns ==>
            forall i :: 0 <= i < n && FallbackEligible(c, q, i) ==>
              && c.accounts[i].id in c.cooldowns
              && c.cooldowns[c.accounts[p].id] <= c.cooldowns[c.accounts[i].id]
              && (i < p ==> c.cooldowns[c.accounts[p].id] < c.cooldowns[c.accounts[i].id]))
  }

  class AccountPool {
    var catalog: Catalog
    var weightedCurrent: map<string, int>
    var currentIndex: nat

    constructor (catalog: Catalog)
      ensures this.catalog == catalog && weightedCurrent == map[] && currentIndex == 0
    {
      this.catalog := catalog;
      weightedCurrent := map[];
      currentIndex := 0;
    }

    method SelectionIndexesForTokenState(q: Query, allowRefreshFallback: bool) returns (indexes: seq<int>)
      ensures indexes == ChosenBelow(catalog, q, allowRefreshFallback, |catalog.accounts|)
    {
      indexes := [];
      var seen: set<string> := {};
      var dedupe := q.mode.Priority? || q.mode.Balanced?;
      for i := 0 to |catalog.accounts|
        invariant seen == set j | 0 <= j < i :: catalog.accounts[j].id
        invariant indexes == ChosenBelow(catalog, q, allowRefreshFallback, i)
      {
        var a := catalog.accounts[i];
        var known := dedupe && a.id in seen;
        seen := seen + {a.id};
        if !known && Selectable(catalog, a, q, allowRefreshFallback) {
          indexes := indexes + [i];
        }
      }
    }

    method OrderSelectionIndexes(indexes: seq<int>, q: Query) returns (ordered: seq<int>)
      requires InCatalog(catalog, indexes)
      ensures ordered == Order(catalog, indexes, q, weightedCurrent, currentIndex)
    {
      ordered := Sort(indexes, Before(catalog, q.model, q.mode, weightedCurrent));
      SortInCatalog(catalog, indexes, Before(catalog, q.model, q.mode, weightedCurrent));
      if q.mode.Balanced? && |ordered| >= 2 {
        var tierEnd := 1;
        while tierEnd < |ordered| && catalog.accounts[ordered[tierEnd]].priority
            == catalog.accounts[ordered[0]].priority
          invariant 1 <= tierEnd <= |ordered|
          invariant TierEnd(catalog, ordered, tierEnd) == TierEnd(catalog, ordered, 1)
        {
          tierEnd := tierEnd + 1;
        }
        var offset := currentIndex % tierEnd;
        ordered := ordered[offset..tierEnd] + ordered[..offset] + ordered[tierEnd..];
      }
    }

    method SelectionIndexes(q: Query) returns (ordered: seq<int>)
      ensures ordered == Order(catalog, Eligible(catalog, q), q, weightedCurrent, currentIndex)
    {
      var indexes := SelectionIndexesForTokenState(q, false);
      if |indexes| == 0 {
        indexes := SelectionIndexesForTokenState(q, true);
      }
      EligibleExact(catalog, q);
      ordered := OrderSelectionIndexes(indexes, q);
    }

    method CommitWeightedSelection(selectedID: string, eligible: seq<int>, mode: Mode)
      modifies this`weightedCurrent, this`currentIndex
      ensures weightedCurrent == Commit(catalog, old(weightedCurrent), selectedID, eligible, mode)
      ensures currentIndex == CommitCursor(catalog, old(currentIndex), selectedID, eligible, mode)
      ensures MapSum(weightedCurrent) == MapSum(old(weightedCurrent))
    {
      CommitConservesSum(catalog, weightedCurrent, selectedID, eligible, mode);
      if selectedID == "" || |eligible| == 0 {
        return;
      }
      if mode.Balanced? {
        currentIndex := currentIndex + 1;
        return;
      }
      if !mode.Weighted? {
        return;
      }
      var totalWeight := 0;
      for k := 0 to |eligible|
        invariant weightedCurrent == AddWeights(catalog, eligible[..k], old(weightedCurrent))
        invariant totalWeight == TotalWeight(catalog, eligible[..k])
        invariant currentIndex == old(currentIndex)
      {
        var i := eligible[k];
        assert eligible[..k + 1][..k] == eligible[..k];
        if 0 <= i < |catalog.accounts| {
          var a := catalog.accounts[i];
          var weight := EffectiveWeight(a.weight);
          weightedCurrent := weightedCurrent[a.id := Lookup(weightedCurrent, a.id) + weight];
          totalWeight := totalWeight + weight;
        }
      }
      assert eligible[..|eligible|] == eligible;
      if totalWeight > 0 {
        weightedCurrent := weightedCurrent[selectedID := Lookup(weightedCurrent, selectedID) - totalWeight];
        currentIndex := currentIndex + 1;
      }
    }

    method GetNextExcluding(q: Query) returns (pick: Option<int>)
      requires q.model == ""
      modifies this`weightedCurrent, this`currentIndex
      ensures var order := Order(catalog, Eligible(catalog, q), q, old(weightedCurrent), old(currentIndex));
        if order != [] then
          && pick == Some(order[0])
          && weightedCurrent == Commit(catalog, old(weightedCurrent), IdAt(catalog, order[0]), order, q.mode)
          && currentIndex == CommitCursor(catalog, old(currentIndex), IdAt(catalog, order[0]), order, q.mode)
        else
          && IsFallback(catalog, q, |catalog.accounts|, pick)
          && weightedCurrent == old(weightedCurrent) && currentIndex == old(currentIndex)
    {
      var indexes := SelectionIndexes(q);
      if |indexes| > 0 {
        CommitWeightedSelection(IdAt(catalog, indexes[0]), indexes, q.mode);
        return Some(indexes[0]);
      }
      pick := Fallback(q);
    }

    /** With nothing selectable: the first account not cooling at all, else the one that recovers first. */
    method Fallback(q: Query) returns (pick: Option<int>)
      ensures IsFallback(catalog, q, |catalog.accounts|, pick)
    {
      pick := None;
      for i := 0 to |catalog.accounts|
        invariant IsFallback(catalog, q, i, pick)
        invariant pick.Some? ==> catalog.accounts[pick.value].id in catalog.cooldowns
        invariant AllCooling(catalog, q, i)
      {
        var a := catalog.accounts[i];
        if FallbackEligible(catalog, q, i) {
          if a.id !in catalog.cooldowns {
            return Some(i);
          }
          if pick.None? || catalog.cooldowns[a.id] < catalog.cooldowns[catalog.accounts[pick.value].id] {
            pick := Some(i);
          }
        }
      }
    }
  }
}
