/** Who is offered and in which order, read off the accounts' own fields (pool/account.go). */
module SelectionOrder {
  import opened Common
  import opened StableSort
  import opened WeightedScheduler

  // ---------------------------------------------------------------- eligibility

  /** Nothing but the state of its token can keep the account from being offered. */
  predicate Fit(c: Catalog, q: Query, a: Account) {
    && a.id !in q.excluded
    && (q.model == "" || (a.id, q.model) !in c.modelNegative || c.modelNegative[(a.id, q.model)] <= q.now)
    && (a.id !in c.cooldowns || c.cooldowns[a.id] <= q.now)
    && (a.overUsageLimit ==> a.overageEnabled || q.allowOverUsage)
  }

  /** The token is missing or about to expire, counting the operator's lead if it can be refreshed. */
  predicate Stale(q: Query, a: Account) {
    || (a.hasRefreshToken && !a.hasAccessToken)
    || (a.expiresAt > 0 && a.expiresAt <= q.now / 1000 + if a.hasRefreshToken then q.refreshLead else 120)
  }

  predicate Refreshable(c: Catalog, q: Query, a: Account) {
    a.hasRefreshToken && (a.id !in c.refreshFailures || c.refreshFailures[a.id] <= q.now)
  }

  /** Outside weighted mode an identifier is offered once, at its first place. */
  predicate FirstOfItsId(c: Catalog, q: Query, i: int)
    requires 0 <= i < |c.accounts|
  {
    q.mode.Priority? || q.mode.Balanced? ==> forall j :: 0 <= j < i ==> c.accounts[j].id != c.accounts[i].id
  }

  predicate Ready(c: Catalog, q: Query, i: int)
    requires 0 <= i < |c.accounts|
  {
    Fit(c, q, c.accounts[i]) && !Stale(q, c.accounts[i]) && FirstOfItsId(c, q, i)
  }

  lemma {:induction false} ChosenByFields(c: Catalog, q: Query, refresh: bool, i: int)
    requires 0 <= i < |c.accounts|
    ensures Chosen(c, q, refresh, i)
       <==> && Fit(c, q, c.accounts[i]) && FirstOfItsId(c, q, i)
            && (Stale(q, c.accounts[i]) ==> refresh && Refreshable(c, q, c.accounts[i]))
  {
  }

  /**
   * Exactly the ready accounts are offered; when there is none, exactly the fit accounts whose token is fresh or can
   * be refreshed now. Each is offered at one place of the order.
   */
  lemma {:induction false} OfferedIff(c: Catalog, q: Query, scores: map<string, int>, cursor: nat, i: int)
    requires 0 <= i < |c.accounts|
    ensures var someReady := exists k :: 0 <= k < |c.accounts| && Ready(c, q, k);
      i in Order(c, Eligible(c, q), q, scores, cursor)
      <==> if someReady then Ready(c, q, i)
           else Fit(c, q, c.accounts[i]) && FirstOfItsId(c, q, i) && Refreshable(c, q, c.accounts[i])
                && Stale(q, c.accounts[i])
  {
    EligibleExact(c, q);
    forall k, refresh | 0 <= k < |c.accounts|
      ensures Chosen(c, q, refresh, k)
         <==> && Fit(c, q, c.accounts[k]) && FirstOfItsId(c, q, k)
              && (Stale(q, c.accounts[k]) ==> refresh && Refreshable(c, q, c.accounts[k]))
    {
      ChosenByFields(c, q, refresh, k);
    }
    assert (exists k :: 0 <= k < |c.accounts| && Chosen(c, q, false, k))
        == (exists k :: 0 <= k < |c.accounts| && Ready(c, q, k)) by {
      if k :| 0 <= k < |c.accounts| && Chosen(c, q, false, k) {
        assert Ready(c, q, k);
      }
      if k :| 0 <= k < |c.accounts| && Ready(c, q, k) {
        assert Chosen(c, q, false, k);
      }
    }
    OrderPermutes(c, Eligible(c, q), q, scores, cursor);
    SameMembers(Order(c, Eligible(c, q), q, scores, cursor), Eligible(c, q), i);
  }

  lemma {:induction false} SameMembers(s: seq<int>, t: seq<int>, x: int)
    requires multiset(s) == multiset(t)
    ensures x in s <==> x in t
  {
    assert x in multiset(s) <==> x in multiset(t);
  }

  lemma {:induction false} RotatedPermutes(c: Catalog, s: seq<int>, cursor: nat)
    requires InCatalog(c, s)
    ensures multiset(Rotated(c, s, cursor)) == multiset(s)
  {
    if |s| >= 2 {
      var tier := TierEnd(c, s, 1);
      var offset := cursor % tier;
      assert s == s[..offset] + s[offset..tier] + s[tier..];
    }
  }

  lemma {:induction false} OrderPermutes(c: Catalog, eligible: seq<int>, q: Query, scores: map<string, int>,
      cursor: nat)
    requires InCatalog(c, eligible)
    ensures multiset(Order(c, eligible, q, scores, cursor)) == multiset(eligible)
    ensures InCatalog(c, Order(c, eligible, q, scores, cursor))
  {
    var sorted := Sort(eligible, Before(c, q.model, q.mode, scores));
    SortInCatalog(c, eligible, Before(c, q.model, q.mode, scores));
    RotatedPermutes(c, sorted, cursor);
    var order := Order(c, eligible, q, scores, cursor);
    forall k | 0 <= k < |order| ensures 0 <= order[k] < |c.accounts| {
      assert order[k] in multiset(order);
      assert order[k] in multiset(sorted);
    }
  }

  /** The fallback considers exactly the accounts that could be offered for any model if nobody were cooling. */
  lemma {:induction false} FallbackIgnoresCooldowns(c: Catalog, q: Query, i: int)
    requires 0 <= i < |c.accounts|
    ensures var a := c.accounts[i];
      FallbackEligible(c, q, i)
      <==> Fit(c.(cooldowns := map[]), q.(model := ""), a) && (Stale(q, a) ==> Refreshable(c, q, a))
  {
  }

  // ---------------------------------------------------------------------- order

  /** The account's model list is known and has the model. */
  predicate Lists(c: Catalog, id: string, model: string) {
    if model == "" || id !in c.modelLists then false else model in c.modelLists[id]
  }

  /** Advertised models come first, then smaller identifiers. */
  predicate TieBroken(c: Catalog, model: string, a: Account, b: Account) {
    var first, second := Lists(c, a.id, model), Lists(c, b.id, model);
    if first != second then first else !StringLess(b.id, a.id)
  }

  /** In priority mode a may stand before b: smaller priority, then advertised, then larger weight, then smaller id. */
  predicate PriorityRank(c: Catalog, model: string, a: Account, b: Account) {
    if a.priority != b.priority then a.priority < b.priority
    else if Lists(c, a.id, model) != Lists(c, b.id, model) then Lists(c, a.id, model)
    else if a.weight != b.weight then a.weight > b.weight
    else !StringLess(b.id, a.id)
  }

  /** In balanced mode the weight plays no part. */
  predicate BalancedRank(c: Catalog, model: string, a: Account, b: Account) {
    if a.priority != b.priority then a.priority < b.priority else TieBroken(c, model, a, b)
  }

  /** Otherwise the larger score after this round's weight comes first. */
  predicate WeightedRank(c: Catalog, model: string, scores: map<string, int>, a: Account, b: Account) {
    var x, y := Lookup(scores, a.id) + EffectiveWeight(a.weight), Lookup(scores, b.id) + EffectiveWeight(b.weight);
    if x != y then x > y else TieBroken(c, model, a, b)
  }

  predicate Ranked(c: Catalog, q: Query, scores: map<string, int>, a: Account, b: Account) {
    match q.mode
    case Priority => PriorityRank(c, q.model, a, b)
    case Balanced => BalancedRank(c, q.model, a, b)
    case _ => WeightedRank(c, q.model, scores, a, b)
  }

  lemma {:induction false} RankedByKeys(c: Catalog, q: Query, scores: map<string, int>, i: int, j: int)
    requires 0 <= i < |c.accounts| && 0 <= j < |c.accounts| && !Before(c, q.model, q.mode, scores)(j, i)
    ensures Ranked(c, q, scores, c.accounts[i], c.accounts[j])
  {
  }

  lemma {:induction false} SortRanked(c: Catalog, eligible: seq<int>, q: Query, scores: map<string, int>, x: nat,
      y: nat)
    requires InCatalog(c, eligible) && x < y < |eligible|
    ensures var s := Sort(eligible, Before(c, q.model, q.mode, scores));
      && InCatalog(c, s) && Ranked(c, q, scores, c.accounts[s[x]], c.accounts[s[y]])
  {
    var less := Before(c, q.model, q.mode, scores);
    var s := Sort(eligible, less);
    BeforeStrictWeak(c, q.model, q.mode, scores);
    SortSorted(eligible, less);
    SortInCatalog(c, eligible, less);
    RankedByKeys(c, q, scores, s[x], s[y]);
  }

  /** In priority and weighted mode the whole order follows the accounts' fields. */
  lemma {:induction false} OrderIsRanked(c: Catalog, eligible: seq<int>, q: Query, scores: map<string, int>,
      cursor: nat,
      x: nat, y: nat)
    requires InCatalog(c, eligible) && !q.mode.Balanced? && x < y < |eligible|
    ensures var order := Order(c, eligible, q, scores, cursor);
      && multiset(order) == multiset(eligible) && InCatalog(c, order) && |order| == |eligible|
      && Ranked(c, q, scores, c.accounts[order[x]], c.accounts[order[y]])
  {
    SortRanked(c, eligible, q, scores, x, y);
  }

  lemma {:induction false} TierShares(c: Catalog, s: seq<int>, n: nat, k: nat)
    requires 1 <= n <= |s| && InCatalog(c, s)
    requires forall m :: 0 <= m < n ==> c.accounts[s[m]].priority == c.accounts[s[0]].priority
    ensures k < TierEnd(c, s, n) ==> c.accounts[s[k]].priority == c.accounts[s[0]].priority
    ensures TierEnd(c, s, n) < |s| ==> c.accounts[s[TierEnd(c, s, n)]].priority != c.accounts[s[0]].priority
    decreases |s| - n
  {
    if n < |s| && c.accounts[s[n]].priority == c.accounts[s[0]].priority {
      TierShares(c, s, n + 1, k);
    }
  }

  /** Where position x of the rotated order comes from. */
  ghost function Origin(c: Catalog, s: seq<int>, cursor: nat, x: nat): nat
    requires InCatalog(c, s) && s != []
  {
    var tier := TierEnd(c, s, 1);
    var offset := cursor % tier;
    if x < tier - offset then x + offset else if x < tier then x - (tier - offset) else x
  }

  lemma {:induction false} RotatedAt(c: Catalog, s: seq<int>, cursor: nat, x: nat)
    requires InCatalog(c, s) && x < |s|
    ensures var o := Origin(c, s, cursor, x); var tier := TierEnd(c, s, 1);
      |Rotated(c, s, cursor)| == |s| && o < |s| && Rotated(c, s, cursor)[x] == s[o]
      && (x < tier <==> o < tier) && (x >= tier ==> o == x)
  {
  }

  /**
   * In balanced mode smaller priorities come first; within the leading priority the cursor decides, and behind it
   * advertised models and then smaller identifiers.
   */
  lemma {:induction false} BalancedOrderIsRanked(c: Catalog, eligible: seq<int>, q: Query, scores: map<string, int>,
      cursor: nat, x: nat, y: nat)
    requires InCatalog(c, eligible) && q.mode.Balanced? && x < y < |eligible|
    ensures var order := Order(c, eligible, q, scores, cursor);
      && multiset(order) == multiset(eligible) && InCatalog(c, order) && |order| == |eligible|
      && var a, b, head := c.accounts[order[x]], c.accounts[order[y]], c.accounts[order[0]];
         && a.priority <= b.priority
         && (head.priority < a.priority ==> BalancedRank(c, q.model, a, b))
  {
    var s := Sort(eligible, Before(c, q.model, q.mode, scores));
    SortInCatalog(c, eligible, Before(c, q.model, q.mode, scores));
    OrderPermutes(c, eligible, q, scores, cursor);
    RotatedAt(c, s, cursor, 0);
    RotatedAt(c, s, cursor, x);
    RotatedAt(c, s, cursor, y);
    var o, p, h := Origin(c, s, cursor, x), Origin(c, s, cursor, y), Origin(c, s, cursor, 0);
    TierShares(c, s, 1, o);
    TierShares(c, s, 1, p);
    TierShares(c, s, 1, h);
    if o < p {
      SortRanked(c, eligible, q, scores, o, p);
    }
    if 0 < p {
      SortRanked(c, eligible, q, scores, 0, p);
    }
  }

  /** Outside weighted mode the head has the smallest priority of all that are offered. */
  lemma {:induction false} HeadHasSmallestPriority(c: Catalog, eligible: seq<int>, q: Query, scores: map<string, int>,
      cursor: nat, i: int)
    requires InCatalog(c, eligible) && (q.mode.Priority? || q.mode.Balanced?) && i in eligible
    ensures var order := Order(c, eligible, q, scores, cursor);
      && |order| == |eligible| && order[0] in eligible && 0 <= order[0] < |c.accounts|
      && c.accounts[order[0]].priority <= c.accounts[i].priority
      && (q.mode.Priority? && i != order[0] ==> PriorityRank(c, q.model, c.accounts[order[0]], c.accounts[i]))
  {
    OrderPermutes(c, eligible, q, scores, cursor);
    var order := Order(c, eligible, q, scores, cursor);
    assert |multiset(order)| == |multiset(eligible)|;
    SameMembers(order, eligible, i);
    SameMembers(order, eligible, order[0]);
    var y :| 0 <= y < |order| && order[y] == i;
    if y > 0 {
      if q.mode.Balanced? {
        BalancedOrderIsRanked(c, eligible, q, scores, cursor, 0, y);
      } else {
        OrderIsRanked(c, eligible, q, scores, cursor, 0, y);
      }
    }
  }
}
