/** The profile counters while the protection settings change (pool/protection.go). */
module ProfileCounting {
  import opened Common
  import opened SlotProtection

  /** A guard is counted on its profile if the profile was limited when the guard was granted. */
  function Flagged(up: Config, w: World, flags: seq<bool>, st: Step): seq<bool> {
    if st.Acquire? && TryAcquire(up, w.slots, st.account, st.model, st.now).Granted?
    then flags + [ProfileLimit(up, st.account.profileArn, st.model) > 0] else flags
  }

  /** Unreleased guards that were counted on a profile and model. */
  function Counting(gs: seq<Guard>, flags: seq<bool>, arn: string, model: string): nat
    requires |gs| == |flags|
  {
    if gs == [] then 0 else
      var g := gs[|gs| - 1];
      Counting(gs[..|gs| - 1], flags[..|gs| - 1], arn, model)
      + if !g.released && flags[|gs| - 1] && Matches(g, ProfileKey(arn, model)) then 1 else 0
  }

  /** The settings in force at each step, the worlds between them and which guards were counted. */
  ghost predicate IsRun(ups: seq<Config>, ws: seq<World>, fs: seq<seq<bool>>, steps: seq<Step>) {
    && |ws| == |steps| + 1 == |fs| == |ups| + 1 && ws[0] == Initial(ws[0].clock) && fs[0] == []
    && forall i :: 0 <= i < |steps| ==>
         ws[i + 1] == SlotProtection.Apply(ups[i], ws[i], steps[i])
             && fs[i + 1] == Flagged(ups[i], ws[i], fs[i], steps[i])
  }

  predicate Exact(w: World, flags: seq<bool>, arn: string, model: string) {
    |w.guards| == |flags| && At(w.slots, ProfileKey(arn, model)).inFlight == Counting(w.guards, flags, arn, model)
  }

  /** The step releases a guard that was granted while the profile had no limit, while a counted one is held. */
  predicate Miscounts(w: World, flags: seq<bool>, st: Step, arn: string, model: string)
    requires |w.guards| == |flags|
  {
    && st.Release? && st.guard < |w.guards| && !w.guards[st.guard].released && !flags[st.guard]
    && Matches(w.guards[st.guard], ProfileKey(arn, model)) && Counting(w.guards, flags, arn, model) > 0
  }

  lemma {:induction false} CountingAppend(gs: seq<Guard>, flags: seq<bool>, g: Guard, flag: bool, arn: string,
      model: string)
    requires |gs| == |flags|
    ensures Counting(gs + [g], flags + [flag], arn, model)
         == Counting(gs, flags, arn, model) + if !g.released && flag && Matches(g, ProfileKey(arn, model)) then 1 else 0
  {
    assert (gs + [g])[..|gs|] == gs && (flags + [flag])[..|gs|] == flags;
  }

  lemma {:induction false} CountingRelease(gs: seq<Guard>, flags: seq<bool>, i: nat, arn: string, model: string)
    requires |gs| == |flags| && i < |gs| && !gs[i].released
    ensures Counting(gs[i := gs[i].(released := true)], flags, arn, model)
         == Counting(gs, flags, arn, model) - if flags[i] && Matches(gs[i], ProfileKey(arn, model)) then 1 else 0
  {
    var n := |gs| - 1;
    var hs := gs[i := gs[i].(released := true)];
    if i == n {
      assert hs[..n] == gs[..n];
    } else {
      assert hs[..n] == gs[..n][i := gs[i].(released := true)];
      CountingRelease(gs[..n], flags[..n], i, arn, model);
    }
  }

  lemma {:induction false} AcquireExactIff(up: Config, w: World, flags: seq<bool>, st: Step, arn: string, model: string)
    requires arn != "" && st.Acquire? && Exact(w, flags, arn, model)
    ensures Exact(SlotProtection.Apply(up, w, st), Flagged(up, w, flags, st), arn, model)
  {
    var a := st.account;
    if TryAcquire(up, w.slots, a, st.model, st.now).Granted? {
      CountingAppend(w.guards, flags, Guard(a.id, a.profileArn, st.model, false),
                     ProfileLimit(up, a.profileArn, st.model) > 0, arn, model);
    }
  }

  lemma {:induction false} ReleaseExactIff(up: Config, w: World, flags: seq<bool>, st: Step, arn: string, model: string)
    requires arn != "" && st.Release? && Exact(w, flags, arn, model)
    ensures Exact(SlotProtection.Apply(up, w, st), Flagged(up, w, flags, st), arn, model)
       <==> !Miscounts(w, flags, st, arn, model)
  {
    if st.guard < |w.guards| && !w.guards[st.guard].released {
      CountingRelease(w.guards, flags, st.guard, arn, model);
    }
  }

  lemma {:induction false} ReportExact(up: Config, w: World, flags: seq<bool>, st: Step, arn: string, model: string)
    requires (st.RateLimitedAt? || st.SucceededAt?) && Exact(w, flags, arn, model)
    ensures Exact(SlotProtection.Apply(up, w, st), Flagged(up, w, flags, st), arn, model)
  {
  }

  lemma {:induction false} StepExactIff(up: Config, w: World, flags: seq<bool>, st: Step, arn: string, model: string)
    requires arn != "" && Exact(w, flags, arn, model)
    ensures Exact(SlotProtection.Apply(up, w, st), Flagged(up, w, flags, st), arn, model)
       <==> !Miscounts(w, flags, st, arn, model)
  {
    match st
    case Acquire(_, _, _) => AcquireExactIff(up, w, flags, st, arn, model);
    case Release(_, _) => ReleaseExactIff(up, w, flags, st, arn, model);
    case RateLimitedAt(_, _, _, _, _, _, _) => ReportExact(up, w, flags, st, arn, model);
    case SucceededAt(_, _, _, _) => ReportExact(up, w, flags, st, arn, model);
  }

  lemma {:induction false} RunStep(
    ups: seq<Config>, ws: seq<World>, fs: seq<seq<bool>>, steps: seq<Step>, i: nat, arn: string, model: string)
    requires IsRun(ups, ws, fs, steps) && i < |steps| && arn != "" && Exact(ws[i], fs[i], arn, model)
    ensures Exact(ws[i + 1], fs[i + 1], arn, model) <==> !Miscounts(ws[i], fs[i], steps[i], arn, model)
  {
    StepExactIff(ups[i], ws[i], fs[i], steps[i], arn, model);
  }

  lemma {:induction false} FlagsMatch(ups: seq<Config>, ws: seq<World>, fs: seq<seq<bool>>, steps: seq<Step>, i: nat)
    requires IsRun(ups, ws, fs, steps) && i < |ws|
    ensures |ws[i].guards| == |fs[i]|
  {
    if i > 0 {
      FlagsMatch(ups, ws, fs, steps, i - 1);
      assert ws[i - 1 + 1] == SlotProtection.Apply(ups[i - 1], ws[i - 1], steps[i - 1]);
    }
  }

  lemma {:induction false} StaysExact(
    ups: seq<Config>, ws: seq<World>, fs: seq<seq<bool>>, steps: seq<Step>, i: nat, arn: string, model: string)
    requires IsRun(ups, ws, fs, steps) && i < |ws| && arn != ""
    requires forall j :: 0 <= j < i ==> |ws[j].guards| == |fs[j]| && !Miscounts(ws[j], fs[j], steps[j], arn, model)
    ensures Exact(ws[i], fs[i], arn, model)
  {
    if i > 0 {
      StaysExact(ups, ws, fs, steps, i - 1, arn, model);
      RunStep(ups, ws, fs, steps, i - 1, arn, model);
    }
  }

  /**
   * With settings that change, a profile's counter is the number of its counted guards in every state of a
   * run exactly if no guard granted while the profile had no limit is released while a counted one is held.
   */
  lemma {:induction false} ExactIffNoMiscount(
    ups: seq<Config>, ws: seq<World>, fs: seq<seq<bool>>, steps: seq<Step>, arn: string, model: string)
    requires IsRun(ups, ws, fs, steps) && arn != ""
    ensures (forall i :: 0 <= i < |ws| ==> Exact(ws[i], fs[i], arn, model))
       <==> (forall i :: 0 <= i < |steps| ==> |ws[i].guards| == |fs[i]| && !Miscounts(ws[i], fs[i], steps[i], arn,
           model))
  {
    if forall i :: 0 <= i < |ws| ==> Exact(ws[i], fs[i], arn, model) {
      forall i | 0 <= i < |steps| ensures |ws[i].guards| == |fs[i]| && !Miscounts(ws[i], fs[i], steps[i], arn, model) {
        RunStep(ups, ws, fs, steps, i, arn, model);
        assert Exact(ws[i + 1], fs[i + 1], arn, model);
      }
    }
    if forall i :: 0 <= i < |steps| ==> |ws[i].guards| == |fs[i]| && !Miscounts(ws[i], fs[i], steps[i], arn, model) {
      forall i | 0 <= i < |ws| ensures Exact(ws[i], fs[i], arn, model) {
        StaysExact(ups, ws, fs, steps, i, arn, model);
      }
    }
  }

  /** Settings that never lift or impose the profile's limit keep it exact. */
  lemma {:induction false} FixedLimitIsExact(
    ups: seq<Config>, ws: seq<World>, fs: seq<seq<bool>>, steps: seq<Step>, arn: string, model: string, limited: bool,
        i: nat)
    requires IsRun(ups, ws, fs, steps) && arn != "" && i < |ws|
    requires forall j :: 0 <= j < |ups| ==> (ProfileLimit(ups[j], arn, model) > 0) == limited
    ensures |ws[i].guards| == |fs[i]|
    ensures forall g :: 0 <= g < |fs[i]| && Matches(ws[i].guards[g], ProfileKey(arn, model)) ==> fs[i][g] == limited
    ensures Exact(ws[i], fs[i], arn, model)
  {
    if i > 0 {
      FixedLimitIsExact(ups, ws, fs, steps, arn, model, limited, i - 1);
      FlagsMatch(ups, ws, fs, steps, i);
      RunStep(ups, ws, fs, steps, i - 1, arn, model);
      FlagsStay(ups[i - 1], ws[i - 1], fs[i - 1], steps[i - 1], arn, model, limited);
      if !limited {
        NoneCounted(ws[i - 1].guards, fs[i - 1], arn, model);
      }
    }
  }

  lemma {:induction false} FlagsStay(up: Config, w: World, flags: seq<bool>, st: Step, arn: string, model: string,
      limited: bool)
    requires |w.guards| == |flags| && (ProfileLimit(up, arn, model) > 0) == limited
    requires forall g :: 0 <= g < |flags| && Matches(w.guards[g], ProfileKey(arn, model)) ==> flags[g] == limited
    ensures var t := SlotProtection.Apply(up, w, st);
      var more := Flagged(up, w, flags, st);
      && |t.guards| == |more|
      && forall g :: 0 <= g < |more| && Matches(t.guards[g], ProfileKey(arn, model)) ==> more[g] == limited
  {
  }

  lemma {:induction false} NoneCounted(gs: seq<Guard>, flags: seq<bool>, arn: string, model: string)
    requires |gs| == |flags|
    requires forall g :: 0 <= g < |gs| && Matches(gs[g], ProfileKey(arn, model)) ==> !flags[g]
    ensures Counting(gs, flags, arn, model) == 0
  {
    if gs != [] {
      NoneCounted(gs[..|gs| - 1], flags[..|gs| - 1], arn, model);
    }
  }

  const UNLIMITED := Config(0, 0, map[], map[], 0, 0, true, 0, 0)
  const LIMITED := UNLIMITED.(perProfileModel := map["p" := map["m" := 2]])
  const ACCOUNT := Account("a", "p", 0)
  const HELD := Guard("a", "p", "m", false)

  function Busy(n: int): Runtime {
    Runtime(n, 0, None, 0, false)
  }

  function Both(profiles: map<(string, string), Runtime>, n: int, guards: seq<Guard>): World {
    World(Slots(map["a" := Busy(n)], map[("a", "m") := Busy(n)], profiles), guards, 0)
  }

  lemma {:induction false} UncountedGrant()
    ensures SlotProtection.Apply(UNLIMITED, Initial(0), Acquire(ACCOUNT, "m", 0)) == Both(map[], 1, [HELD])
    ensures Flagged(UNLIMITED, Initial(0), [], Acquire(ACCOUNT, "m", 0)) == [false]
  {
    assert |"m"| == 1 && AccountLimit(UNLIMITED, ACCOUNT) == 10 && ModelLimit(UNLIMITED, "m") == 5;
    assert ProfileLimit(UNLIMITED, "p", "m") == 0;
  }

  lemma {:induction false} CountedGrant()
    ensures SlotProtection.Apply(LIMITED, Both(map[], 1, [HELD]), Acquire(ACCOUNT, "m", 0))
         == Both(map[("p", "m") := Busy(1)], 2, [HELD, HELD])
    ensures Flagged(LIMITED, Both(map[], 1, [HELD]), [false], Acquire(ACCOUNT, "m", 0)) == [false, true]
  {
    assert |"m"| == 1 && |"p"| == 1 && AccountLimit(LIMITED, ACCOUNT) == 10 && ModelLimit(LIMITED, "m") == 5;
    assert ProfileLimit(LIMITED, "p", "m") == 2;
    assert [HELD] + [HELD] == [HELD, HELD] && [false] + [true] == [false, true];
  }

  lemma {:induction false} PairCounted(first: Guard)
    ensures Counting([first, HELD], [false, true], "p", "m") == 1
  {
    CountingAppend([], [], first, false, "p", "m");
    CountingAppend([first], [false], HELD, true, "p", "m");
    assert [] + [first] == [first] && [] + [false] == [false];
    assert [first] + [HELD] == [first, HELD] && [false] + [true] == [false, true];
  }

  lemma {:induction false} OldestReleased()
    ensures SlotProtection.Apply(LIMITED, Both(map[("p", "m") := Busy(1)], 2, [HELD, HELD]), Release(0, 0))
         == Both(map[], 1, [HELD.(released := true), HELD])
  {
    assert |"m"| == 1 && |"p"| == 1;
    assert [HELD, HELD][0 := HELD.(released := true)] == [HELD.(released := true), HELD];
    assert map[("p", "m") := Busy(1)] - {("p", "m")} == map[];
  }

  const SETTINGS: seq<Config> := [UNLIMITED, LIMITED, LIMITED]
  const STORY: seq<Step> := [Acquire(ACCOUNT, "m", 0), Acquire(ACCOUNT, "m", 0), Release(0, 0)]
  const FLAGS: seq<seq<bool>> := [[], [false], [false, true], [false, true]]

  function Scenes(): seq<World> {
    [Initial(0), Both(map[], 1, [HELD]), Both(map[("p", "m") := Busy(1)], 2, [HELD, HELD]),
     Both(map[], 1, [HELD.(released := true), HELD])]
  }

  lemma {:induction false} SceneSteps(i: nat)
    requires i < 3
    ensures Scenes()[i + 1] == SlotProtection.Apply(SETTINGS[i], Scenes()[i], STORY[i])
    ensures FLAGS[i + 1] == Flagged(SETTINGS[i], Scenes()[i], FLAGS[i], STORY[i])
  {
    if i == 0 {
      UncountedGrant();
    } else if i == 1 {
      CountedGrant();
    } else {
      OldestReleased();
    }
  }

  /** It does happen: once a limit is imposed, the release of an older guard takes a newer one off the counter. */
  lemma {:induction false} ImposedLimitMiscounts()
    returns (ups: seq<Config>, ws: seq<World>, fs: seq<seq<bool>>, steps: seq<Step>)
    ensures IsRun(ups, ws, fs, steps) && |steps| == 3 && |ws[3].guards| == |fs[3]|
    ensures At(ws[3].slots, ProfileKey("p", "m")).inFlight == 0 && Counting(ws[3].guards, fs[3], "p", "m") == 1
  {
    ups, ws, fs, steps := SETTINGS, Scenes(), FLAGS, STORY;
    forall i | 0 <= i < 3
      ensures ws[i + 1] == SlotProtection.Apply(ups[i], ws[i], steps[i])
          && fs[i + 1] == Flagged(ups[i], ws[i], fs[i], steps[i])
    {
      SceneSteps(i);
    }
    PairCounted(HELD.(released := true));
  }
}
