/** The arithmetic of smooth weighted round robin over positions 0..n-1. */
module SmoothRoundRobin {
  import opened Common

  function Sum(s: seq<int>): int {
    if s == [] then 0 else s[0] + Sum(s[1..])
  }

  /** One commit: everyone gains its weight, the picked position pays the total. */
  function Step(c: seq<int>, w: seq<int>, k: nat): (r: seq<int>)
    requires |c| == |w| && k < |w|
    ensures |r| == |w|
  {
    seq(|w|, i requires 0 <= i < |w| => c[i] + w[i] - if i == k then Sum(w) else 0)
  }

  /** The picked position has the largest score after the weights are added. */
  predicate Top(c: seq<int>, w: seq<int>, k: nat)
    requires |c| == |w|
  {
    k < |w| && forall j :: 0 <= j < |w| ==> c[j] + w[j] <= c[k] + w[k]
  }

  predicate InRange(picks: seq<nat>, n: nat) {
    forall i :: 0 <= i < |picks| ==> picks[i] < n
  }

  /** Scores reached from zero by a list of picks. */
  function Scores(w: seq<int>, picks: seq<nat>): (r: seq<int>)
    requires InRange(picks, |w|)
    ensures |r| == |w|
  {
    if picks == [] then seq(|w|, _ => 0)
    else Step(Scores(w, picks[..|picks| - 1]), w, picks[|picks| - 1])
  }

  predicate TopRun(w: seq<int>, picks: seq<nat>)
    requires InRange(picks, |w|)
  {
    picks == [] ||
    (TopRun(w, picks[..|picks| - 1]) && Top(Scores(w, picks[..|picks| - 1]), w, picks[|picks| - 1]))
  }

  predicate Weights(w: seq<int>) {
    w != [] && forall i :: 0 <= i < |w| ==> w[i] >= 1
  }

  lemma {:induction false} SumPositive(w: seq<int>)
    requires Weights(w)
    ensures Sum(w) >= |w| >= 1
  {
    if |w| > 1 {
      SumPositive(w[1..]);
    }
  }

  /** The value of each score in terms of how often its position was picked. */
  lemma {:induction false} ScoreClosedForm(w: seq<int>, picks: seq<nat>, i: nat)
    requires InRange(picks, |w|)
    requires i < |w|
    ensures Scores(w, picks)[i] == |picks| * w[i] - Count<nat>(picks, i) * Sum(w)
  {
    if picks != [] {
      var rest := picks[..|picks| - 1];
      ScoreClosedForm(w, rest, i);
      MulSuccessor(|rest|, w[i]);
      MulSuccessor(Count<nat>(rest, i), Sum(w));
    } else {
      assert Count<nat>(picks, i) == 0;
    }
  }

  lemma {:induction false} MulSuccessor(n: int, x: int)
    ensures (n + 1) * x == n * x + x
  {
  }

  lemma {:induction false} MulDistributes(x: int, a: int, b: int)
    ensures x * (a - b) == x * a - b * x
  {
  }

  lemma {:induction false} SumStep(c: seq<int>, w: seq<int>, d: seq<int>, k: int, total: int)
    requires |c| == |w| == |d|
    requires forall i :: 0 <= i < |w| ==> d[i] == c[i] + w[i] - if i == k then total else 0
    ensures Sum(d) == Sum(c) + Sum(w) - if 0 <= k < |w| then total else 0
  {
    if w != [] {
      SumStep(c[1..], w[1..], d[1..], k - 1, total);
    }
  }

  /** Every commit conserves the sum of the scores, whichever position is picked. */
  lemma {:induction false} ScoresSumToZero(w: seq<int>, picks: seq<nat>)
    requires InRange(picks, |w|)
    ensures Sum(Scores(w, picks)) == 0
  {
    if picks == [] {
      SumOfZeros(|w|);
    } else {
      var rest := picks[..|picks| - 1];
      ScoresSumToZero(w, rest);
      SumStep(Scores(w, rest), w, Scores(w, picks), picks[|picks| - 1], Sum(w));
    }
  }

  lemma {:induction false} SumOfZeros(n: nat)
    ensures Sum(seq(n, _ => 0)) == 0
  {
    if n > 0 {
      assert seq(n, _ => 0)[1..] == seq(n - 1, _ => 0);
      SumOfZeros(n - 1);
    }
  }

  lemma {:induction false} SumAtMost(c: seq<int>, w: seq<int>, bound: int)
    requires |c| == |w| && bound <= 0
    requires forall i :: 0 <= i < |w| ==> c[i] + w[i] <= bound
    ensures Sum(c) + Sum(w) <= 0
  {
    if w != [] {
      SumAtMost(c[1..], w[1..], bound);
    }
  }

  /** Picking the top keeps every score strictly above minus the total weight. */
  lemma {:induction false} ScoresBounded(w: seq<int>, picks: seq<nat>)
    requires Weights(w)
    requires InRange(picks, |w|)
    requires TopRun(w, picks)
    ensures forall i :: 0 <= i < |w| ==> Scores(w, picks)[i] > -Sum(w)
  {
    SumPositive(w);
    if picks != [] {
      var rest := picks[..|picks| - 1];
      var k := picks[|picks| - 1];
      var c := Scores(w, rest);
      ScoresBounded(w, rest);
      ScoresSumToZero(w, rest);
      if c[k] + w[k] <= 0 {
        SumAtMost(c, w, c[k] + w[k]);
        assert false;
      }
    }
  }

  lemma {:induction false} CountsSumToLength(picks: seq<nat>, n: nat, counts: seq<int>)
    requires InRange(picks, n)
    requires |counts| == n && forall i :: 0 <= i < n ==> counts[i] == Count<nat>(picks, i)
    ensures Sum(counts) == |picks|
  {
    if picks == [] {
      assert counts == seq(n, _ => 0);
      SumOfZeros(n);
    } else {
      var rest := picks[..|picks| - 1];
      var k := picks[|picks| - 1];
      var before := seq(n, i requires 0 <= i < n => Count<nat>(rest, i));
      CountsSumToLength(rest, n, before);
      assert k in picks;
      var zeros := seq(n, _ => 0);
      SumOfZeros(n);
      SumStep(before, zeros, counts, k, -1);
    }
  }

  lemma {:induction false} SumEqualPointwise(a: seq<int>, b: seq<int>)
    requires |a| == |b| && Sum(a) == Sum(b)
    requires forall i :: 0 <= i < |a| ==> a[i] <= b[i]
    ensures a == b
  {
    if a != [] {
      SumMonotone(a[1..], b[1..]);
      SumEqualPointwise(a[1..], b[1..]);
      assert a == [a[0]] + a[1..] && b == [b[0]] + b[1..];
    }
  }

  lemma {:induction false} SumMonotone(a: seq<int>, b: seq<int>)
    requires |a| == |b|
    requires forall i :: 0 <= i < |a| ==> a[i] <= b[i]
    ensures Sum(a) <= Sum(b)
  {
    if a != [] {
      SumMonotone(a[1..], b[1..]);
    }
  }

  lemma {:induction false} NegativeFactor(total: int, x: int)
    requires total > 0
    ensures x <= -1 ==> total * x <= -total
  {
    if x <= -1 {
      assert total * (-1 - x) >= 0;
      assert total * x + total * (-1 - x) == -total;
    }
  }

  lemma {:induction false} PeriodArithmetic(total: int, x: int, n: int, score: int)
    requires total > 0 && score == total * x - n * total && score > -total
    ensures n <= x
    ensures n == x ==> score == 0
  {
    MulDistributes(total, x, n);
    NegativeFactor(total, x - n);
  }

  lemma {:induction false} PeriodCount(w: seq<int>, picks: seq<nat>, i: nat)
    requires Weights(w) && InRange(picks, |w|)
    requires TopRun(w, picks) && |picks| == Sum(w) && i < |w|
    ensures Count<nat>(picks, i) <= w[i]
    ensures Count<nat>(picks, i) == w[i] ==> Scores(w, picks)[i] == 0
  {
    SumPositive(w);
    ScoresBounded(w, picks);
    ScoreClosedForm(w, picks, i);
    PeriodArithmetic(Sum(w), w[i], Count<nat>(picks, i), Scores(w, picks)[i]);
  }

  ghost function Counts(picks: seq<nat>, n: nat): (r: seq<int>)
    ensures |r| == n && forall i :: 0 <= i < n ==> r[i] == Count<nat>(picks, i)
  {
    seq(n, i requires 0 <= i < n => Count<nat>(picks, i))
  }

  /** One full period from zero picks every position exactly its weight and returns to zero. */
  lemma {:induction false} FullPeriod(w: seq<int>, picks: seq<nat>)
    requires Weights(w) && InRange(picks, |w|)
    requires TopRun(w, picks) && |picks| == Sum(w)
    ensures Counts(picks, |w|) == w
    ensures Scores(w, picks) == seq(|w|, _ => 0)
  {
    var counts := Counts(picks, |w|);
    forall i | 0 <= i < |w|
      ensures counts[i] <= w[i]
      ensures counts[i] == w[i] ==> Scores(w, picks)[i] == 0
    {
      PeriodCount(w, picks, i);
    }
    CountsSumToLength(picks, |w|, counts);
    SumEqualPointwise(counts, w);
  }

  // ------------------------------------------------ runs with a fixed choice rule

  /** Positions i and j of a run see the same scores. */
  predicate SameScores(w: seq<int>, picks: seq<nat>, i: nat, j: nat)
    requires InRange(picks, |w|) && i <= |picks| && j <= |picks|
  {
    Scores(w, picks[..i]) == Scores(w, picks[..j])
  }

  /** The pick depends on the scores only. */
  ghost predicate Deterministic(w: seq<int>, picks: seq<nat>)
    requires InRange(picks, |w|)
  {
    forall i: nat, j: nat {:trigger SameScores(w, picks, i, j)} ::
      i < |picks| && j < |picks| && SameScores(w, picks, i, j) ==> picks[i] == picks[j]
  }

  lemma {:induction false} TopRunPrefix(w: seq<int>, picks: seq<nat>, t: nat)
    requires InRange(picks, |w|) && TopRun(w, picks) && t <= |picks|
    ensures TopRun(w, picks[..t])
    decreases |picks|
  {
    if t < |picks| {
      TopRunPrefix(w, picks[..|picks| - 1], t);
      assert picks[..|picks| - 1][..t] == picks[..t];
    } else {
      assert picks[..t] == picks;
    }
  }

  lemma {:induction false} ScoresExtend(w: seq<int>, picks: seq<nat>, t: nat)
    requires InRange(picks, |w|) && t < |picks|
    ensures Scores(w, picks[..t + 1]) == Step(Scores(w, picks[..t]), w, picks[t])
  {
    assert picks[..t + 1][..t] == picks[..t];
  }

  lemma {:induction false} TopRunExtend(w: seq<int>, picks: seq<nat>, p: nat)
    requires InRange(picks, |w|) && TopRun(w, picks) && Top(Scores(w, picks), w, p)
    ensures InRange(picks + [p], |w|) && TopRun(w, picks + [p])
    ensures Scores(w, picks + [p]) == Step(Scores(w, picks), w, p)
  {
    assert (picks + [p])[..|picks|] == picks;
  }

  /** After total-weight many picks the scores repeat. */
  lemma {:induction false} Periodic(w: seq<int>, picks: seq<nat>, t: nat, total: nat)
    requires Weights(w) && InRange(picks, |w|) && TopRun(w, picks) && Deterministic(w, picks)
    requires total == Sum(w) && t + total <= |picks|
    ensures SameScores(w, picks, t + total, t)
  {
    if t == 0 {
      TopRunPrefix(w, picks, total);
      FullPeriod(w, picks[..total]);
    } else {
      Periodic(w, picks, t - 1, total);
      ScoresExtend(w, picks, t - 1);
      ScoresExtend(w, picks, t - 1 + total);
    }
  }

  lemma {:induction false} WindowArithmetic(t: int, total: int, x: int, before: int, after: int)
    requires total > 0
    requires (t + total) * x - after * total == t * x - before * total
    ensures after - before == x
  {
    var d := x - (after - before);
    assert (t + total) * x == t * x + total * x;
    assert total * d == total * x - after * total + before * total;
    NegativeFactor(total, d);
    NegativeFactor(total, -d);
    assert total * -d == -(total * d);
  }

  /** Every window of total-weight many consecutive picks chooses each position exactly its weight. */
  lemma {:induction false} WindowCount(w: seq<int>, picks: seq<nat>, t: nat, total: nat, i: nat)
    requires Weights(w) && InRange(picks, |w|) && TopRun(w, picks) && Deterministic(w, picks)
    requires total == Sum(w) && t + total <= |picks| && i < |w|
    ensures Count<nat>(picks[t..t + total], i) == w[i]
  {
    SumPositive(w);
    Periodic(w, picks, t, total);
    ScoreClosedForm(w, picks[..t], i);
    ScoreClosedForm(w, picks[..t + total], i);
    WindowArithmetic(t, total, w[i], Count<nat>(picks[..t], i), Count<nat>(picks[..t + total], i));
    assert picks[..t + total] == picks[..t] + picks[t..t + total];
    CountConcat<nat>(picks[..t], picks[t..t + total], i);
  }

  lemma {:induction false} WindowBackwards(t: int, total: int, x: int, before: int, after: int)
    requires after - before == x
    ensures (t + total) * x - after * total == t * x - before * total
  {
    assert (t + total) * x == t * x + total * x;
    assert after * total == before * total + x * total;
  }

  lemma {:induction false} WindowAt(w: seq<int>, picks: seq<nat>, t: nat, total: nat, i: nat)
    requires Weights(w) && InRange(picks, |w|) && total == Sum(w) && t + total <= |picks| && i < |w|
    ensures Count<nat>(picks[t..t + total], i) == w[i] <==> Scores(w, picks[..t + total])[i] == Scores(w, picks[..t])[i]
  {
    SumPositive(w);
    ScoreClosedForm(w, picks[..t], i);
    ScoreClosedForm(w, picks[..t + total], i);
    var before, after := Count<nat>(picks[..t], i), Count<nat>(picks[..t + total], i);
    assert picks[..t + total] == picks[..t] + picks[t..t + total];
    CountConcat<nat>(picks[..t], picks[t..t + total], i);
    if after - before == w[i] {
      WindowBackwards(t, total, w[i], before, after);
    }
    if Scores(w, picks[..t + total])[i] == Scores(w, picks[..t])[i] {
      WindowArithmetic(t, total, w[i], before, after);
    }
  }

  /** Whatever is picked: a window of total-weight many picks is fair exactly if it leaves every score as it was. */
  lemma {:induction false} WindowFairIff(w: seq<int>, picks: seq<nat>, t: nat, total: nat)
    requires Weights(w) && InRange(picks, |w|) && total == Sum(w) && t + total <= |picks|
    ensures (forall i: nat :: i < |w| ==> Count<nat>(picks[t..t + total], i) == w[i]) <==>
        SameScores(w, picks, t + total, t)
  {
    forall i: nat | i < |w|
      ensures Count<nat>(picks[t..t + total], i) == w[i] <==>
          Scores(w, picks[..t + total])[i] == Scores(w, picks[..t])[i]
    {
      WindowAt(w, picks, t, total, i);
    }
  }

  /** The pick at s goes to a position that has not yet had its weight in the window that starts at t. */
  predicate WithinShare(w: seq<int>, picks: seq<nat>, t: nat, s: nat)
    requires InRange(picks, |w|) && t <= s < |picks|
  {
    Count<nat>(picks[t..s], picks[s]) < w[picks[s]]
  }

  lemma {:induction false} CountNext(picks: seq<nat>, t: nat, s: nat, i: nat)
    requires t <= s < |picks|
    ensures Count<nat>(picks[t..s + 1], i) == Count<nat>(picks[t..s], i) + if picks[s] == i then 1 else 0
  {
    assert picks[t..s + 1][..s - t] == picks[t..s];
  }

  lemma {:induction false} CountGrows(picks: seq<nat>, t: nat, s: nat, u: nat, i: nat)
    requires t <= s <= u <= |picks|
    ensures Count<nat>(picks[t..s], i) <= Count<nat>(picks[t..u], i)
  {
    if s < u {
      CountGrows(picks, t, s, u - 1, i);
      CountNext(picks, t, u - 1, i);
    }
  }

  lemma {:induction false} SharesBound(w: seq<int>, picks: seq<nat>, t: nat, u: nat, i: nat)
    requires Weights(w) && InRange(picks, |w|) && t <= u <= |picks| && i < |w|
    requires forall s :: t <= s < u ==> WithinShare(w, picks, t, s)
    ensures Count<nat>(picks[t..u], i) <= w[i]
  {
    if t < u {
      SharesBound(w, picks, t, u - 1, i);
      CountNext(picks, t, u - 1, i);
      assert WithinShare(w, picks, t, u - 1);
    } else {
      assert picks[t..u] == [];
    }
  }

  /**
   * Whatever is picked: a window of total-weight many picks is fair exactly if no pick goes to a position
   * that already had its weight in that window.
   */
  lemma {:induction false} FairIffWithinShares(w: seq<int>, picks: seq<nat>, t: nat, total: nat)
    requires Weights(w) && InRange(picks, |w|) && total == Sum(w) && t + total <= |picks|
    ensures (forall i: nat :: i < |w| ==> Count<nat>(picks[t..t + total], i) == w[i])
       <==> (forall s :: t <= s < t + total ==> WithinShare(w, picks, t, s))
  {
    if forall i: nat :: i < |w| ==> Count<nat>(picks[t..t + total], i) == w[i] {
      forall s | t <= s < t + total ensures WithinShare(w, picks, t, s) {
        assert picks[s] in picks;
        CountNext(picks, t, s, picks[s]);
        CountGrows(picks, t, s + 1, t + total, picks[s]);
      }
    }
    if forall s :: t <= s < t + total ==> WithinShare(w, picks, t, s) {
      SharesFill(w, picks, t, total);
    }
  }

  lemma {:induction false} SharesFill(w: seq<int>, picks: seq<nat>, t: nat, total: nat)
    requires Weights(w) && InRange(picks, |w|) && total == Sum(w) && t + total <= |picks|
    requires forall s :: t <= s < t + total ==> WithinShare(w, picks, t, s)
    ensures forall i: nat :: i < |w| ==> Count<nat>(picks[t..t + total], i) == w[i]
  {
    var window := picks[t..t + total];
    var counts := Counts(window, |w|);
    forall i | 0 <= i < |w| ensures counts[i] <= w[i] {
      SharesBound(w, picks, t, t + total, i);
    }
    forall k | k in window ensures k in picks {
    }
    CountsSumToLength(window, |w|, counts);
    SumEqualPointwise(counts, w);
  }

  lemma {:induction false} ShareArithmetic(n: int, total: int, x: int, c: int, change: int)
    requires total > 0 && change == n * x - c * total
    ensures c < x <==> change > (n - total) * x
  {
    var d := x - c;
    assert (n - total) * x == n * x - total * x;
    assert change - (n - total) * x == total * d by {
      assert total * d == total * x - c * total;
    }
    NegativeFactor(total, d);
    NegativeFactor(total, -d);
    assert total * -d == -(total * d);
  }

  /** The same guard read off the scores just before the pick. */
  lemma {:induction false} WithinShareByScore(w: seq<int>, picks: seq<nat>, t: nat, s: nat)
    requires Weights(w) && InRange(picks, |w|) && t <= s < |picks|
    ensures var p := picks[s];
      WithinShare(w, picks, t, s)
      <==> Scores(w, picks[..s])[p] - Scores(w, picks[..t])[p] > (s - t - Sum(w)) * w[p]
  {
    SumPositive(w);
    var p := picks[s];
    assert p in picks;
    ScoreClosedForm(w, picks[..t], p);
    ScoreClosedForm(w, picks[..s], p);
    assert picks[..s] == picks[..t] + picks[t..s];
    CountConcat<nat>(picks[..t], picks[t..s], p);
    var before, inside := Count<nat>(picks[..t], p), Count<nat>(picks[t..s], p);
    ChangeOf(s, t, w[p], before, inside, Sum(w));
    ShareArithmetic(s - t, Sum(w), w[p], inside, (s - t) * w[p] - inside * Sum(w));
  }

  lemma {:induction false} ChangeOf(s: int, t: int, x: int, before: int, inside: int, total: int)
    ensures s * x - (before + inside) * total - (t * x - before * total) == (s - t) * x - inside * total
  {
    assert (before + inside) * total == before * total + inside * total;
    assert (s - t) * x == s * x - t * x;
  }
}
