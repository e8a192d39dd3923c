/**
 * Which call a tool-use fragment reaches (proxy/kiro.go): a description of one event and of whole runs that does not
 * follow the lookup, the labelling and the flushing of the assembly.
 */
module FragmentRouting {
  import opened Common
  import opened ToolAssembly

  // ------------------------------------------------------------------- addressing

  predicate FirstWithId(q: seq<Call>, id: string, k: nat) {
    k < |q| && q[k].id == id && forall m :: 0 <= m < k ==> q[m].id != id
  }

  predicate FirstWithIndex(q: seq<Call>, index: string, k: nat) {
    index != "" && k < |q| && q[k].index == index && forall m :: 0 <= m < k ==> q[m].index != index
  }

  predicate HasId(q: seq<Call>, id: string) {
    exists m :: 0 <= m < |q| && q[m].id == id
  }

  predicate HasIndex(q: seq<Call>, index: string) {
    index != "" && exists m :: 0 <= m < |q| && q[m].index == index
  }

  /** The youngest call may be meant by an event of this name. */
  predicate Youngest(q: seq<Call>, name: string, k: nat) {
    k + 1 == |q| && (name == "" || q[k].name == name)
  }

  /**
   * The event is for the pending call k: its identifier if it is pending, else its content block, else the youngest
   * call, which an event with an identifier of its own reaches only while that call's identifier is a made-up one.
   */
  predicate Addressed(q: seq<Call>, ev: Event, k: nat) {
    if ev.id != "" && HasId(q, ev.id) then FirstWithId(q, ev.id, k)
    else if HasIndex(q, ev.index) then FirstWithIndex(q, ev.index, k)
    else if ev.id != "" then Youngest(q, ev.name, k) && q[k].generated
    else ev.index == "" && Youngest(q, ev.name, k)
  }

  /** No pending call is meant, and the event says enough to open one. */
  ghost predicate Opens(q: seq<Call>, ev: Event) {
    (forall k: nat :: !Addressed(q, ev, k)) && (ev.id != "" || ev.name != "")
  }

  function Grown(buffer: string, input: Input): string {
    match input
    case NoInput => buffer
    case Text(t) => buffer + t
    case Whole(j) => j
  }

  /** The call once it has taken everything the event carries. */
  function Received(c: Call, ev: Event): Call {
    var name := if c.name == "" then ev.name else c.name;
    var generated := c.generated && (ev.id == "" || ev.id == c.id);
    Call(c.serial, if ev.id == "" then c.id else ev.id, name, if c.index == "" then ev.index else c.index,
         Grown(c.buffer, ev.input), generated, c.started || (!generated && name != ""), c.stopped || ev.stop)
  }

  /** A stop mark for a call that nobody has named. */
  predicate StopsUnnamed(c: Call, ev: Event) {
    ev.stop && c.name == "" && ev.name == ""
  }

  function NewCall(st: State, ev: Event): Call {
    Call(st.next, if ev.id == "" then ev.spare else ev.id, ev.name, ev.index, "", ev.id == "", false, false)
  }

  /** A new name without identifier and content block closes the youngest call. */
  function Closed(q: seq<Call>, ev: Event): seq<Call> {
    if ev.id == "" && ev.index == "" && q != [] then q[|q| - 1 := q[|q| - 1].(stopped := true)] else q
  }

  function UseOf(c: Call): Out {
    Use(c.serial, c.id, c.name, c.buffer)
  }

  // ---------------------------------------------------------------------- leaving

  /** The first n calls of q left, each named one by being emitted as it was, and nothing else was emitted. */
  ghost predicate Left(q: seq<Call>, log: seq<Out>, t: State, n: nat) {
    && n <= |q| && t.queue == q[n..] && log <= t.log
    && (forall m :: 0 <= m < n && q[m].name != "" ==> UseOf(q[m]) in t.log)
    && (forall i :: |log| <= i < |t.log| && t.log[i].Use? ==> exists m :: 0 <= m < n && t.log[i] == UseOf(q[m]))
  }

  predicate AllStopped(q: seq<Call>, n: nat) {
    n <= |q| && forall m :: 0 <= m < n ==> q[m].stopped
  }

  ghost predicate Clean(t: State) {
    t.queue == [] || !t.queue[0].stopped
  }

  predicate Malformed(t: State, env: Env) {
    && t.queue != [] && t.queue[0].stopped && t.queue[0].name != "" && t.queue[0].buffer != ""
    && !env.isObject(t.queue[0].buffer)
  }

  /** Only a stop mark lets calls leave, and it can only fail on malformed arguments. */
  ghost predicate Ended(r: Outcome, ev: Event, env: Env) {
    if ev.stop then if r.Done? then Clean(r.st) else Malformed(r.st, env) else r.Done?
  }

  lemma {:induction false} NoneLeft(q: seq<Call>, outs: seq<Out>, log: seq<Out>, t: State)
    requires t.queue == q && t.log == log + outs && NoUse(outs)
    ensures Left(q, log, t, 0)
  {
    assert q[0..] == q;
  }

  lemma {:induction false} PoppedLeft(st: State, env: Env, t: State, n: nat)
    requires st.queue != [] && Finish(st.queue[0], env).Some?
    requires var p := Pop(st, Finish(st.queue[0], env).value); Left(p.queue, p.log, t, n)
    ensures Left(st.queue, st.log, t, n + 1)
  {
    var q := st.queue;
    var outs := Finish(q[0], env).value;
    var p := Pop(st, outs);
    assert q[1..][n..] == q[n + 1..];
    FinishedUse(q[0], env);
    if q[0].name != "" {
      assert p.log[|p.log| - 1] == UseOf(q[0]);
      assert t.log[|p.log| - 1] == p.log[|p.log| - 1];
    }
    forall m | 0 <= m < n + 1 && q[m].name != "" ensures UseOf(q[m]) in t.log {
      if m > 0 {
        assert p.queue[m - 1] == q[m];
      }
    }
    forall i | |st.log| <= i < |t.log| && t.log[i].Use?
      ensures exists m :: 0 <= m < n + 1 && t.log[i] == UseOf(q[m])
    {
      if i < |p.log| {
        assert t.log[i] == p.log[i] == outs[i - |st.log|];
        assert t.log[i] == UseOf(q[0]);
      } else {
        var m :| 0 <= m < n && t.log[i] == UseOf(p.queue[m]);
        assert p.queue[m] == q[m + 1];
      }
    }
  }

  lemma {:induction false} FinishedUse(c: Call, env: Env)
    requires Finish(c, env).Some?
    ensures var outs := Finish(c, env).value;
      && (forall i :: 0 <= i < |outs| && outs[i].Use? ==> outs[i] == UseOf(c))
      && (c.name != "" ==> outs != [] && outs[|outs| - 1] == UseOf(c))
  {
  }

  /** Flushing takes exactly the closed calls in front, up to one whose arguments are malformed. */
  lemma {:induction false} FlushLeaves(st: State, env: Env) returns (n: nat)
    ensures var r := Flush(st, env);
      && Left(st.queue, st.log, r.st, n) && r.st.next == st.next
      && AllStopped(st.queue, n)
      && if r.Done? then Clean(r.st) else Malformed(r.st, env)
    decreases |st.queue|
  {
    if st.queue == [] || !st.queue[0].stopped || Finish(st.queue[0], env).None? {
      n := 0;
      assert st.log + [] == st.log;
      NoneLeft(st.queue, [], st.log, st);
    } else {
      var p := Pop(st, Finish(st.queue[0], env).value);
      var k := FlushLeaves(p, env);
      n := k + 1;
      PoppedLeft(st, env, Flush(p, env).st, k);
      forall m | 0 <= m < n ensures st.queue[m].stopped {
        if m > 0 {
          assert p.queue[m - 1] == st.queue[m];
        }
      }
    }
  }

  lemma {:induction false} RecoverLeaves(st: State, b: Boundary, env: Env) returns (n: nat)
    ensures Left(st.queue, st.log, Recover(st, b, env).0, n) && Recover(st, b, env).0.next == st.next
    decreases |st.queue|
  {
    if st.queue == [] || !Recoverable(st.queue[0], b, env) || Finish(st.queue[0], env).None? {
      n := 0;
      assert st.log + [] == st.log;
      NoneLeft(st.queue, [], st.log, st);
    } else {
      var p := Pop(st, Finish(st.queue[0], env).value);
      var k := RecoverLeaves(p, b, env);
      n := k + 1;
      PoppedLeft(st, env, Recover(p, b, env).0, k);
    }
  }

  // -------------------------------------------------------------------- one event

  /** The call as the lookup hands it over: only its identifier can be new. */
  function Renamed(c: Call, ev: Event): Call {
    if ev.id == "" || ev.id == c.id then c else c.(id := ev.id, generated := false)
  }

  lemma {:induction false} LocateAddressed(st: State, ev: Event, env: Env, k: nat)
    requires Addressed(st.queue, ev, k)
    ensures k < |st.queue| && Locate(st, ev, env) == Found(Put(st, k, Renamed(st.queue[k], ev)), k)
  {
    var q := st.queue;
    var byId := ById(q, ev.id);
    var byIndex := ByIndex(q, ev.index);
    FirstById(q, ev.id, 0);
    assert q[k := q[k]] == q;
    if ev.id != "" && HasId(q, ev.id) {
      assert byId == Some(k);
    } else {
      assert ev.id == "" || byId.None?;
      if HasIndex(q, ev.index) {
        assert byIndex == Some(k);
      } else {
        assert ev.index == "" || byIndex.None?;
      }
    }
  }

  lemma {:induction false} FirstById(q: seq<Call>, id: string, i: nat)
    ensures ById(q, id, i).Some? ==> forall m :: i <= m < ById(q, id, i).value ==> q[m].id != id
    decreases |q| - i
  {
    if i < |q| {
      FirstById(q, id, i + 1);
    }
  }

  /** The located call takes the event, and the closed calls in front leave if it is closed by it. */
  lemma {:induction false} AbsorbDelivers(st: State, at: nat, c: Call, ev: Event, env: Env) returns (n: nat)
    requires at < |st.queue| && st.queue[at] == Renamed(c, ev) && !StopsUnnamed(c, ev)
    ensures var r := Absorb(st, at, ev, env);
      && Left(st.queue[at := Received(c, ev)], st.log, r.st, n) && r.st.next == st.next
      && AllStopped(st.queue[at := Received(c, ev)], n)
      && Ended(r, ev, env) && (!ev.stop ==> n == 0)
  {
    var q := st.queue[at := Received(c, ev)];
    var fed := Feed(Opened(Put(st, at, Labelled(st.queue[at], ev)), at), at, ev.input);
    var outs := FedLog(st, at, ev);
    FedQueue(st, at, c, ev);
    if ev.stop {
      var s := Put(fed, at, fed.queue[at].(stopped := true));
      assert s.queue == q;
      n := FlushLeaves(s, env);
      LeftLater(q, st.log, outs, Flush(s, env).st, n);
    } else {
      assert fed.queue == q;
      n := 0;
      NoneLeft(q, outs, st.log, fed);
    }
  }

  lemma {:induction false} FedQueue(st: State, at: nat, c: Call, ev: Event)
    requires at < |st.queue| && st.queue[at] == Renamed(c, ev)
    ensures var fed := Feed(Opened(Put(st, at, Labelled(st.queue[at], ev)), at), at, ev.input);
      fed.queue == st.queue[at := Received(c, ev).(stopped := c.stopped)] && fed.next == st.next
  {
  }

  lemma {:induction false} FedLog(st: State, at: nat, ev: Event) returns (outs: seq<Out>)
    requires at < |st.queue|
    ensures var fed := Feed(Opened(Put(st, at, Labelled(st.queue[at], ev)), at), at, ev.input);
      fed.log == st.log + outs && NoUse(outs)
  {
    var s := Put(st, at, Labelled(st.queue[at], ev));
    var o := Opened(s, at);
    var opening := if o == s then [] else Opening(s.queue[at]);
    assert o.log == st.log + opening;
    var c := o.queue[at];
    var fed := match ev.input case NoInput => [] case Text(t) => FedOuts(c, t, t != "") case Whole(j) => FedOuts(c, j,
        true);
    outs := opening + fed;
    assert Feed(o, at, ev.input).log == o.log + fed;
    assert st.log + opening + fed == st.log + outs;
  }

  lemma {:induction false} LeftLater(q: seq<Call>, log: seq<Out>, outs: seq<Out>, t: State, n: nat)
    requires Left(q, log + outs, t, n) && NoUse(outs)
    ensures Left(q, log, t, n)
  {
    forall i | |log| <= i < |log + outs| ensures !t.log[i].Use? {
      assert t.log[i] == (log + outs)[i];
    }
    assert log <= log + outs;
  }

  /**
   * An event for a pending call: that call takes the name, the content block, the input and the stop mark, every other
   * pending call is as before, and what leaves is the closed calls in front, each named one emitted as it is.
   * A stop mark for a nameless call is refused and delivers nothing.
   */
  lemma {:induction false} FragmentReachesItsCall(st: State, ev: Event, env: Env, k: nat) returns (n: nat)
    requires Addressed(st.queue, ev, k)
    ensures var r := Handle(st, ev, env); var c := st.queue[k];
      && r.st.next == st.next
      && if StopsUnnamed(c, ev) then r == Failed(st.(queue := st.queue[k := Renamed(c, ev)]))
         else
           var q := st.queue[k := Received(c, ev)];
           && Left(q, st.log, r.st, n) && AllStopped(q, n)
           && Ended(r, ev, env) && (!ev.stop ==> n == 0)
  {
    var c := st.queue[k];
    LocateAddressed(st, ev, env, k);
    var s := Put(st, k, Renamed(c, ev));
    n := 0;
    if !StopsUnnamed(c, ev) {
      n := AbsorbDelivers(s, k, c, ev, env);
      assert s.queue[k := Received(c, ev)] == st.queue[k := Received(c, ev)];
    }
  }

  lemma {:induction false} UnaddressedLookup(st: State, ev: Event)
    requires forall k: nat :: !Addressed(st.queue, ev, k)
    ensures ev.id != "" ==> ById(st.queue, ev.id).None?
    ensures ev.index != "" ==> ByIndex(st.queue, ev.index).None?
    ensures st.queue != [] && (ev.name == "" || st.queue[|st.queue| - 1].name == ev.name) ==>
      if ev.id != "" then !st.queue[|st.queue| - 1].generated else ev.index != ""
  {
    var q := st.queue;
    var byId := ById(q, ev.id);
    var byIndex := ByIndex(q, ev.index);
    FirstById(q, ev.id, 0);
    if ev.id != "" && byId.Some? {
      assert Addressed(q, ev, byId.value);
    }
    if ev.index != "" && byIndex.Some? {
      assert Addressed(q, ev, byIndex.value);
    }
    if q != [] {
      assert !Addressed(q, ev, |q| - 1);
    }
  }

  function Appended(st: State, c: Call): State {
    State(st.queue + [c], st.next + 1, st.log, st.overwritten)
  }

  /** A new call takes the event behind the calls that are pending by then. */
  lemma {:induction false} NewCallDelivers(st: State, c: Call, ev: Event, env: Env) returns (n: nat)
    requires c.id == (if ev.id == "" then c.id else ev.id) && !StopsUnnamed(c, ev)
    ensures var r := Absorb(Appended(st, c), |st.queue|, ev, env);
      && Left(st.queue + [Received(c, ev)], st.log, r.st, n) && r.st.next == st.next + 1
      && AllStopped(st.queue + [Received(c, ev)], n)
      && Ended(r, ev, env) && (!ev.stop ==> n == 0)
  {
    var s := Appended(st, c);
    n := AbsorbDelivers(s, |st.queue|, c, ev, env);
    assert s.queue[|st.queue| := Received(c, ev)] == st.queue + [Received(c, ev)];
  }

  /** Calls that left before a new one came, and calls that left after it. */
  lemma {:induction false} LeftTwice(q: seq<Call>, c: Call, log: seq<Out>, s: State, t: State, n: nat, m: nat)
    requires Left(q, log, s, n) && AllStopped(q, n)
    requires Left(s.queue + [c], s.log, t, m) && AllStopped(s.queue + [c], m)
    ensures Left(q + [c], log, t, n + m) && AllStopped(q + [c], n + m)
  {
    var all, rest := q + [c], s.queue + [c];
    assert rest == all[n..];
    assert all[n..][m..] == all[n + m..];
    forall i | 0 <= i < n + m ensures all[i].stopped && (all[i].name != "" ==> UseOf(all[i]) in t.log) {
      if i < n {
        assert all[i] == q[i];
        if all[i].name != "" {
          var a :| 0 <= a < |s.log| && s.log[a] == UseOf(q[i]);
          assert t.log[a] == s.log[a];
        }
      } else {
        assert all[i] == rest[i - n];
      }
    }
    forall i | |log| <= i < |t.log| && t.log[i].Use?
      ensures exists j :: 0 <= j < n + m && t.log[i] == UseOf(all[j])
    {
      if i < |s.log| {
        assert t.log[i] == s.log[i];
        var j :| 0 <= j < n && s.log[i] == UseOf(q[j]);
        assert all[j] == q[j];
      } else {
        var j :| 0 <= j < m && t.log[i] == UseOf(rest[j]);
        assert all[n + j] == rest[j];
      }
    }
  }

  lemma {:induction false} LookupOpens(st: State, ev: Event, env: Env)
    requires Opens(st.queue, ev) && !(ev.id == "" && ev.index == "" && st.queue != [])
    ensures Locate(st, ev, env) == Found(Appended(st, NewCall(st, ev)), |st.queue|)
  {
    UnaddressedLookup(st, ev);
  }

  lemma {:induction false} LookupCloses(st: State, ev: Event, env: Env)
    requires Opens(st.queue, ev) && ev.id == "" && ev.index == "" && st.queue != []
    ensures var flushed := Flush(st.(queue := Closed(st.queue, ev)), env);
      Locate(st, ev, env) == if flushed.Failed? then Broken(flushed.st)
      else Found(Appended(flushed.st, NewCall(st, ev)), |flushed.st.queue|)
  {
    UnaddressedLookup(st, ev);
    FlushOverwrites(st.(queue := Closed(st.queue, ev)), env);
  }

  lemma {:induction false} OpenedBehindClosed(st: State, ev: Event, env: Env) returns (n: nat)
    requires Opens(st.queue, ev) && ev.id == "" && ev.index == "" && st.queue != []
    ensures var r := Handle(st, ev, env); var base := Closed(st.queue, ev); var c := NewCall(st, ev);
      if r.st.next == st.next then r.Failed? && Malformed(r.st, env) && Left(base, st.log, r.st, n)
      else
        && r.st.next == st.next + 1 && Left(base + [Received(c, ev)], st.log, r.st, n)
        && AllStopped(base + [Received(c, ev)], n)
        && Ended(r, ev, env)
  {
    LookupCloses(st, ev, env);
    var base, c := Closed(st.queue, ev), NewCall(st, ev);
    var closed := st.(queue := base);
    n := FlushLeaves(closed, env);
    var flushed := Flush(closed, env);
    if flushed.Done? {
      HandleFound(st, ev, env, Appended(flushed.st, c), |flushed.st.queue|);
      var m := OpenedAfter(base, st.log, flushed.st, c, ev, env, n);
      n := n + m;
    }
  }

  lemma {:induction false} OpenedAtEnd(st: State, ev: Event, env: Env) returns (n: nat)
    requires Opens(st.queue, ev) && !(ev.id == "" && ev.index == "" && st.queue != [])
    ensures var r := Handle(st, ev, env); var c := NewCall(st, ev);
      if StopsUnnamed(c, ev) then r == Failed(Appended(st, c))
      else
        && r.st.next == st.next + 1 && Left(st.queue + [Received(c, ev)], st.log, r.st, n)
        && AllStopped(st.queue + [Received(c, ev)], n)
        && Ended(r, ev, env)
  {
    var c := NewCall(st, ev);
    LookupOpens(st, ev, env);
    HandleFound(st, ev, env, Appended(st, c), |st.queue|);
    n := 0;
    if !StopsUnnamed(c, ev) {
      n := NewCallDelivers(st, c, ev, env);
    }
  }

  lemma {:induction false} HandleFound(st: State, ev: Event, env: Env, s: State, at: nat)
    requires at < |s.queue| && Locate(st, ev, env) == Found(s, at)
    ensures Handle(st, ev, env) == Absorb(s, at, ev, env)
  {
  }

  lemma {:induction false} OpenedAfter(base: seq<Call>, log: seq<Out>, s: State, c: Call, ev: Event, env: Env, n: nat)
      returns (m: nat)
    requires Left(base, log, s, n) && AllStopped(base, n) && !StopsUnnamed(c, ev) && ev.id == ""
    ensures var r := Absorb(Appended(s, c), |s.queue|, ev, env);
      && r.st.next == s.next + 1 && Left(base + [Received(c, ev)], log, r.st, n + m)
      && AllStopped(base + [Received(c, ev)], n + m)
      && Ended(r, ev, env)
  {
    m := NewCallDelivers(s, c, ev, env);
    var t := Absorb(Appended(s, c), |s.queue|, ev, env).st;
    LeftTwice(base, Received(c, ev), log, s, t, n, m);
  }

  /**
   * An event that no pending call is meant by and that says enough opens the next call, which takes everything the
   * event carries; a new name alone closes the youngest call first. Only if what that releases is malformed is
   * nothing opened, and a stop mark for the nameless new call is refused.
   */
  lemma {:induction false} FragmentOpensCall(st: State, ev: Event, env: Env) returns (n: nat)
    requires Opens(st.queue, ev)
    ensures var r := Handle(st, ev, env); var base := Closed(st.queue, ev); var c := NewCall(st, ev);
      if r.st.next == st.next then
        ev.id == "" && ev.index == "" && r.Failed? && Malformed(r.st, env) && Left(base, st.log, r.st, n)
      else if StopsUnnamed(c, ev) then
        r == Failed(st.(queue := st.queue + [c], next := st.next + 1))
      else
        && r.st.next == st.next + 1 && Left(base + [Received(c, ev)], st.log, r.st, n)
        && AllStopped(base + [Received(c, ev)], n)
        && Ended(r, ev, env)
  {
    if ev.id == "" && ev.index == "" && st.queue != [] {
      n := OpenedBehindClosed(st, ev, env);
    } else {
      n := OpenedAtEnd(st, ev, env);
    }
  }

  /** An event that says nothing and means no pending call changes nothing; it is an error unless it is a stop mark. */
  lemma {:induction false} StrayFragment(st: State, ev: Event, env: Env)
    requires (forall k: nat :: !Addressed(st.queue, ev, k)) && ev.id == "" && ev.name == ""
    ensures Handle(st, ev, env) == if ev.stop then Done(st) else Failed(st)
  {
    UnaddressedLookup(st, ev);
  }

  // ------------------------------------------------------------------------- runs

  /** The step from s to t hands its input to the call: it was meant by the event, or opened for it. */
  ghost predicate Takes(s: State, step: Step, t: State, serial: nat) {
    && step.OnEvent?
    && var ev := step.event;
       || (s.next == serial < t.next && !(ev.stop && ev.name == ""))
       || exists k: nat :: Addressed(s.queue, ev, k) && s.queue[k].serial == serial && !StopsUnnamed(s.queue[k], ev)
  }

  /** The inputs handed to one call in the first i steps, in order. */
  ghost function Gathered(sts: seq<State>, steps: seq<Step>, i: nat, serial: nat): string
    requires |sts| == |steps| + 1 && i <= |steps|
  {
    if i == 0 then "" else
      var before := Gathered(sts, steps, i - 1, serial);
      if Takes(sts[i - 1], steps[i - 1], sts[i], serial) then Grown(before, steps[i - 1].event.input) else before
  }

  /** The arguments of one call, pending or emitted; a call still to come has none. */
  ghost predicate Told(st: State, serial: nat, args: string) {
    && (forall k :: 0 <= k < |st.queue| && st.queue[k].serial == serial ==> st.queue[k].buffer == args)
    && (forall a :: 0 <= a < |st.log| && st.log[a].Use? && st.log[a].serial == serial ==> st.log[a].args == args)
    && (st.next <= serial ==> args == "")
  }

  lemma {:induction false} LeftTold(q: seq<Call>, log: seq<Out>, t: State, n: nat, serial: nat, args: string)
    requires Left(q, log, t, n) && (t.next <= serial ==> args == "")
    requires forall k :: 0 <= k < |q| && q[k].serial == serial ==> q[k].buffer == args
    requires forall a :: 0 <= a < |log| && log[a].Use? && log[a].serial == serial ==> log[a].args == args
    ensures Told(t, serial, args)
  {
    forall a | 0 <= a < |t.log| && t.log[a].Use? && t.log[a].serial == serial ensures t.log[a].args == args {
      if a < |log| {
        assert t.log[a] == log[a];
      } else {
        var m :| 0 <= m < n && t.log[a] == UseOf(q[m]);
      }
    }
    forall k | 0 <= k < |t.queue| && t.queue[k].serial == serial ensures t.queue[k].buffer == args {
      assert t.queue[k] == q[n + k];
    }
  }

  lemma {:induction false} AddressedOnce(q: seq<Call>, ev: Event, j: nat, k: nat)
    requires Addressed(q, ev, j) && Addressed(q, ev, k)
    ensures j == k
  {
  }

  lemma {:induction false} DeliveredTold(st: State, k: nat, c: Call, t: State, n: nat, serial: nat, args: string,
      text: string)
    requires Ordered(st) && Told(st, serial, args) && k < |st.queue| && c.serial == st.queue[k].serial
    requires Left(st.queue[k := c], st.log, t, n) && t.next == st.next
    requires if c.serial == serial then c.buffer == text else text == args
    ensures Told(t, serial, text)
  {
    LeftTold(st.queue[k := c], st.log, t, n, serial, text);
  }

  /** Who is handed an event that is meant for a pending call. */
  lemma {:induction false} AddressedTakes(st: State, ev: Event, k: nat, t: State, serial: nat)
    requires Ordered(st) && Addressed(st.queue, ev, k) && t.next == st.next
    ensures Takes(st, OnEvent(ev), t, serial) <==> st.queue[k].serial == serial && !StopsUnnamed(st.queue[k], ev)
  {
    if Takes(st, OnEvent(ev), t, serial) {
      var j: nat :| Addressed(st.queue, ev, j) && st.queue[j].serial == serial && !StopsUnnamed(st.queue[j], ev);
      AddressedOnce(st.queue, ev, j, k);
    }
  }

  lemma {:induction false} AddressedTold(st: State, ev: Event, env: Env, k: nat, serial: nat, args: string)
    requires Ordered(st) && Told(st, serial, args) && Addressed(st.queue, ev, k)
    ensures var t := Handle(st, ev, env).st;
      Told(t, serial, if Takes(st, OnEvent(ev), t, serial) then Grown(args, ev.input) else args)
  {
    var n := FragmentReachesItsCall(st, ev, env, k);
    var c, t := st.queue[k], Handle(st, ev, env).st;
    AddressedTakes(st, ev, k, t, serial);
    if StopsUnnamed(c, ev) {
      assert st.log + [] == st.log;
      NoneLeft(st.queue[k := Renamed(c, ev)], [], st.log, t);
      DeliveredTold(st, k, Renamed(c, ev), t, 0, serial, args, args);
    } else {
      var text := if c.serial == serial then Grown(args, ev.input) else args;
      DeliveredTold(st, k, Received(c, ev), t, n, serial, args, text);
    }
  }

  lemma {:induction false} AppendedTold(st: State, base: seq<Call>, c: Call, t: State, n: nat, serial: nat,
      args: string,
      text: string)
    requires Ordered(st) && Told(st, serial, args) && |base| == |st.queue| && c.serial == st.next == t.next - 1
    requires forall k :: 0 <= k < |base| ==>
        base[k].serial == st.queue[k].serial && base[k].buffer == st.queue[k].buffer
    requires Left(base + [c], st.log, t, n)
    requires if c.serial == serial then c.buffer == text else text == args
    ensures Told(t, serial, text)
  {
    LeftTold(base + [c], st.log, t, n, serial, text);
  }

  lemma {:induction false} OpenedTold(st: State, ev: Event, env: Env, serial: nat, args: string)
    requires Ordered(st) && Told(st, serial, args) && Opens(st.queue, ev)
    ensures var t := Handle(st, ev, env).st;
      Told(t, serial, if Takes(st, OnEvent(ev), t, serial) then Grown(args, ev.input) else args)
  {
    var n := FragmentOpensCall(st, ev, env);
    OpenedToldAt(st, ev, Handle(st, ev, env).st, n, serial, args);
  }

  lemma {:induction false} OpenedToldAt(st: State, ev: Event, t: State, n: nat, serial: nat, args: string)
    requires Ordered(st) && Told(st, serial, args) && Opens(st.queue, ev)
    requires var base := Closed(st.queue, ev); var c := NewCall(st, ev);
      if t.next == st.next then Left(base, st.log, t, n)
      else if StopsUnnamed(c, ev) then t == st.(queue := st.queue + [c], next := st.next + 1)
      else t.next == st.next + 1 && Left(base + [Received(c, ev)], st.log, t, n)
    ensures Told(t, serial, if Takes(st, OnEvent(ev), t, serial) then Grown(args, ev.input) else args)
  {
    var c, base := NewCall(st, ev), Closed(st.queue, ev);
    var mine := st.next == serial < t.next && !StopsUnnamed(c, ev);
    assert Takes(st, OnEvent(ev), t, serial) <==> mine;
    if t.next == st.next {
      LeftTold(base, st.log, t, n, serial, args);
    } else if StopsUnnamed(c, ev) {
      assert st.log + [] == st.log;
      NoneLeft(st.queue + [c], [], st.log, t);
      AppendedTold(st, st.queue, c, t, 0, serial, args, args);
    } else {
      AppendedTold(st, base, Received(c, ev), t, n, serial, args, if mine then Grown(args, ev.input) else args);
    }
  }

  lemma {:induction false} StepTold(st: State, step: Step, env: Env, serial: nat, args: string)
    requires Ordered(st) && Told(st, serial, args)
    ensures var t := Apply(st, step, env);
      Told(t, serial, if Takes(st, step, t, serial) then Grown(args, step.event.input) else args)
  {
    match step
    case OnRecovery(b) =>
      var n := RecoverLeaves(st, b, env);
      LeftTold(st.queue, st.log, Recover(st, b, env).0, n, serial, args);
    case OnEvent(ev) =>
      if k: nat :| Addressed(st.queue, ev, k) {
        AddressedTold(st, ev, env, k, serial, args);
      } else if ev.id != "" || ev.name != "" {
        OpenedTold(st, ev, env, serial, args);
      } else {
        StrayFragment(st, ev, env);
      }
  }

  /** The step hands over exactly what it takes. */
  ghost predicate StepTells(s: State, step: Step, t: State, serial: nat) {
    forall args: string :: Told(s, serial, args) ==>
      Told(t, serial, if Takes(s, step, t, serial) then Grown(args, step.event.input) else args)
  }

  lemma {:induction false} RunStepTells(sts: seq<State>, steps: seq<Step>, env: Env, i: nat, serial: nat)
    requires IsRun(sts, steps, env) && i < |steps|
    ensures StepTells(sts[i], steps[i], sts[i + 1], serial)
  {
    RunKeeps(sts, steps, env, false, i);
    forall args: string | Told(sts[i], serial, args)
      ensures Told(sts[i + 1], serial,
        if Takes(sts[i], steps[i], sts[i + 1], serial) then Grown(args, steps[i].event.input) else args)
    {
      StepTold(sts[i], steps[i], env, serial, args);
    }
  }

  lemma {:induction false} StepsTold(sts: seq<State>, steps: seq<Step>, i: nat, serial: nat)
    requires |sts| == |steps| + 1 && i < |sts| && Told(sts[0], serial, "")
    requires forall j :: 0 <= j < i ==> StepTells(sts[j], steps[j], sts[j + 1], serial)
    ensures Told(sts[i], serial, Gathered(sts, steps, i, serial))
  {
    if i > 0 {
      StepsTold(sts, steps, i - 1, serial);
      assert StepTells(sts[i - 1], steps[i - 1], sts[i], serial);
    }
  }

  lemma {:induction false} RunTold(sts: seq<State>, steps: seq<Step>, env: Env, i: nat, serial: nat)
    requires IsRun(sts, steps, env) && i < |sts|
    ensures Told(sts[i], serial, Gathered(sts, steps, i, serial))
  {
    forall j | 0 <= j < i ensures StepTells(sts[j], steps[j], sts[j + 1], serial) {
      RunStepTells(sts, steps, env, j, serial);
    }
    StepsTold(sts, steps, i, serial);
  }

  /**
   * In every run, the arguments of an emitted call are exactly the inputs of the events meant for it, in their order,
   * and so is the text collected for a pending one.
   */
  lemma {:induction false} ArgumentsAreItsFragments(sts: seq<State>, steps: seq<Step>, env: Env, i: nat)
    requires IsRun(sts, steps, env) && i < |sts|
    ensures forall a :: 0 <= a < |sts[i].log| && sts[i].log[a].Use? ==>
      sts[i].log[a].args == Gathered(sts, steps, i, sts[i].log[a].serial)
    ensures forall k :: 0 <= k < |sts[i].queue| ==>
      sts[i].queue[k].buffer == Gathered(sts, steps, i, sts[i].queue[k].serial)
  {
    forall a | 0 <= a < |sts[i].log| && sts[i].log[a].Use?
      ensures sts[i].log[a].args == Gathered(sts, steps, i, sts[i].log[a].serial)
    {
      RunTold(sts, steps, env, i, sts[i].log[a].serial);
    }
    forall k | 0 <= k < |sts[i].queue|
      ensures sts[i].queue[k].buffer == Gathered(sts, steps, i, sts[i].queue[k].serial)
    {
      RunTold(sts, steps, env, i, sts[i].queue[k].serial);
    }
  }

  // ---------------------------------------------------------- identified streams

  /** Every call has the identifier that the upstream gave it, and no two share one. */
  predicate Plain(st: State) {
    && (forall k :: 0 <= k < |st.queue| ==> !st.queue[k].generated)
    && (forall i, j :: 0 <= i < j < |st.queue| ==> st.queue[i].id != st.queue[j].id)
  }

  predicate Holds(st: State, serial: nat, id: string) {
    exists k :: 0 <= k < |st.queue| && st.queue[k].serial == serial && st.queue[k].id == id
  }

  /** Every event carries an identifier and none reuses the content block of another pending call. */
  ghost predicate Identified(sts: seq<State>, steps: seq<Step>) {
    NoIndexReuse(sts, steps) && forall i :: 0 <= i < |steps| && steps[i].OnEvent? ==> steps[i].event.id != ""
  }

  lemma {:induction false} AddressedById(st: State, ev: Event, k: nat)
    requires Plain(st) && ev.id != "" && !ReusesIndex(st, ev) && Addressed(st.queue, ev, k)
    ensures k < |st.queue| && st.queue[k].id == ev.id
  {
    var byId, byIndex := ById(st.queue, ev.id), ByIndex(st.queue, ev.index);
  }

  /** Leaving from the front keeps identifiers. */
  lemma {:induction false} LeftPlain(s: State, q: seq<Call>, log: seq<Out>, t: State, n: nat)
    requires Plain(s.(queue := q)) && Left(q, log, t, n)
    ensures Plain(t)
    ensures forall serial, id :: Holds(t, serial, id) ==> Holds(s.(queue := q), serial, id)
  {
    assert forall k :: 0 <= k < |t.queue| ==> t.queue[k] == q[n + k];
    forall serial, id | Holds(t, serial, id) ensures Holds(s.(queue := q), serial, id) {
      var k :| 0 <= k < |t.queue| && t.queue[k].serial == serial && t.queue[k].id == id;
      assert q[n + k] == t.queue[k];
    }
  }

  lemma {:induction false} AddressedPlain(st: State, ev: Event, env: Env, k: nat)
    requires Plain(st) && ev.id != "" && !ReusesIndex(st, ev) && Addressed(st.queue, ev, k)
    requires Handle(st, ev, env).Done?
    ensures Plain(Handle(st, ev, env).st)
    ensures forall serial, id :: Holds(Handle(st, ev, env).st, serial, id) ==> Holds(st, serial, id)
  {
    var n := FragmentReachesItsCall(st, ev, env, k);
    AddressedById(st, ev, k);
    var q := st.queue[k := Received(st.queue[k], ev)];
    assert forall m :: 0 <= m < |q| ==>
      q[m].id == st.queue[m].id && q[m].serial == st.queue[m].serial && !q[m].generated;
    LeftPlain(st, q, st.log, Handle(st, ev, env).st, n);
    forall serial, id | Holds(st.(queue := q), serial, id) ensures Holds(st, serial, id) {
      var m :| 0 <= m < |q| && q[m].serial == serial && q[m].id == id;
      assert st.queue[m].serial == serial && st.queue[m].id == id;
    }
  }

  lemma {:induction false} OpenedPlain(st: State, ev: Event, env: Env)
    requires Plain(st) && Ordered(st) && ev.id != "" && Opens(st.queue, ev) && Handle(st, ev, env).Done?
    ensures var t := Handle(st, ev, env).st;
      && Plain(t) && t.next == st.next + 1
      && (forall serial, id :: Holds(t, serial, id) ==> Holds(st, serial, id) || (serial == st.next && id == ev.id))
  {
    var n := FragmentOpensCall(st, ev, env);
    UnaddressedLookup(st, ev);
    var c := Received(NewCall(st, ev), ev);
    AppendedPlain(st, c, ev.id);
    LeftPlain(st, st.queue + [c], st.log, Handle(st, ev, env).st, n);
  }

  lemma {:induction false} AppendedPlain(st: State, c: Call, id: string)
    requires Plain(st) && !c.generated && c.id == id && c.serial == st.next
    requires forall k :: 0 <= k < |st.queue| ==> st.queue[k].id != id
    ensures Plain(st.(queue := st.queue + [c]))
    ensures forall serial, i :: Holds(st.(queue := st.queue + [c]), serial, i) ==>
      Holds(st, serial, i) || (serial == st.next && i == id)
  {
    var q := st.queue + [c];
    forall serial, i | Holds(st.(queue := q), serial, i) && !(serial == st.next && i == id)
      ensures Holds(st, serial, i)
    {
      var m :| 0 <= m < |q| && q[m].serial == serial && q[m].id == i;
      assert st.queue[m] == q[m];
    }
  }

  lemma {:induction false} StepPlain(st: State, step: Step, env: Env)
    requires Plain(st) && Ordered(st)
    requires step.OnEvent? ==> step.event.id != "" && !ReusesIndex(st, step.event) && Handle(st, step.event, env).Done?
    ensures var t := Apply(st, step, env);
      && Plain(t) && st.next <= t.next
      && (t.next > st.next ==> step.OnEvent? && t.next == st.next + 1)
      && forall serial, id :: Holds(t, serial, id) ==>
           Holds(st, serial, id) || (serial == st.next < t.next && id == step.event.id)
  {
    match step
    case OnRecovery(b) =>
      var n := RecoverLeaves(st, b, env);
      LeftPlain(st, st.queue, st.log, Recover(st, b, env).0, n);
    case OnEvent(ev) =>
      if k: nat :| Addressed(st.queue, ev, k) {
        AddressedPlain(st, ev, env, k);
        var n := FragmentReachesItsCall(st, ev, env, k);
      } else {
        OpenedPlain(st, ev, env);
      }
  }

  /** A pending call is handed exactly the events that carry its identifier. */
  lemma {:induction false} TakesByIdentifier(st: State, step: Step, env: Env, serial: nat, id: string)
    requires Plain(st) && Ordered(st) && Holds(st, serial, id)
    requires step.OnEvent? ==> step.event.id != "" && !ReusesIndex(st, step.event) && Handle(st, step.event, env).Done?
    ensures Takes(st, step, Apply(st, step, env), serial) <==> step.OnEvent? && step.event.id == id
  {
    var q := st.queue;
    var h :| 0 <= h < |q| && q[h].serial == serial && q[h].id == id;
    if step.OnEvent? {
      var ev := step.event;
      if ev.id == id {
        assert Addressed(q, ev, h);
        var n := FragmentReachesItsCall(st, ev, env, h);
        assert Takes(st, step, Apply(st, step, env), serial);
      } else {
        forall k: nat | Addressed(q, ev, k) ensures q[k].serial != serial {
          AddressedById(st, ev, k);
        }
      }
    }
  }

  /** The texts of the events that carry an identifier. */
  function TextsFor(steps: seq<Step>, id: string): string {
    if steps == [] then "" else
      var last := steps[|steps| - 1];
      TextsFor(steps[..|steps| - 1], id)
      + if last.OnEvent? && last.event.id == id && last.event.input.Text? then last.event.input.text else ""
  }

  ghost predicate Undisturbed(sts: seq<State>, steps: seq<Step>, env: Env, n: nat) {
    n <= |steps| < |sts| && forall i :: 0 <= i < n && steps[i].OnEvent? ==> Handle(sts[i], steps[i].event, env).Done?
  }

  lemma {:induction false} RunPlain(sts: seq<State>, steps: seq<Step>, env: Env, i: nat)
    requires IsRun(sts, steps, env) && Identified(sts, steps) && i < |sts| && Undisturbed(sts, steps, env, i)
    ensures Plain(sts[i]) && Ordered(sts[i])
  {
    RunKeeps(sts, steps, env, false, i);
    if i > 0 {
      RunPlain(sts, steps, env, i - 1);
      StepPlain(sts[i - 1], steps[i - 1], env);
    }
  }

  lemma {:induction false} OpeningTakes(st: State, step: Step, env: Env)
    requires step.OnEvent? && Handle(st, step.event, env).Done? && Apply(st, step, env).next > st.next
    ensures Takes(st, step, Apply(st, step, env), st.next)
  {
    var ev := step.event;
    if k: nat :| Addressed(st.queue, ev, k) {
      var n := FragmentReachesItsCall(st, ev, env, k);
    } else if ev.id != "" || ev.name != "" {
      var n := FragmentOpensCall(st, ev, env);
    } else {
      StrayFragment(st, ev, env);
    }
  }

  lemma {:induction false} HoldsOne(st: State, serial: nat, id: string, other: string)
    requires Ordered(st) && Holds(st, serial, id) && Holds(st, serial, other)
    ensures id == other
  {
  }

  /** The step hands the call exactly an event with its identifier, and leaves it that identifier. */
  ghost predicate StepById(s: State, step: Step, t: State, serial: nat, id: string) {
    && (Takes(s, step, t, serial) <==> step.OnEvent? && step.event.id == id)
    && (Present(t, serial) ==> Holds(t, serial, id))
  }

  lemma {:induction false} PendingStepById(sts: seq<State>, steps: seq<Step>, env: Env, j: nat, serial: nat, id: string)
    requires IsRun(sts, steps, env) && Identified(sts, steps) && j < |steps| && Undisturbed(sts, steps, env, j + 1)
    requires Holds(sts[j], serial, id)
    ensures StepById(sts[j], steps[j], sts[j + 1], serial, id)
  {
    RunPlain(sts, steps, env, j);
    HeldStepById(sts[j], steps[j], env, serial, id);
  }

  lemma {:induction false} HeldStepById(st: State, step: Step, env: Env, serial: nat, id: string)
    requires Plain(st) && Ordered(st) && Holds(st, serial, id)
    requires step.OnEvent? ==> step.event.id != "" && !ReusesIndex(st, step.event) && Handle(st, step.event, env).Done?
    ensures StepById(st, step, Apply(st, step, env), serial, id)
  {
    var t := Apply(st, step, env);
    StepPlain(st, step, env);
    TakesByIdentifier(st, step, env, serial, id);
    if Present(t, serial) {
      var k :| 0 <= k < |t.queue| && t.queue[k].serial == serial;
      assert Holds(t, serial, t.queue[k].id);
      assert Holds(st, serial, t.queue[k].id);
      HoldsOne(st, serial, id, t.queue[k].id);
    }
  }

  lemma {:induction false} OpeningStepById(sts: seq<State>, steps: seq<Step>, env: Env, a: nat)
    requires IsRun(sts, steps, env) && Identified(sts, steps) && a < |steps| && Undisturbed(sts, steps, env, a + 1)
    requires sts[a].next < sts[a + 1].next
    ensures steps[a].OnEvent? && StepById(sts[a], steps[a], sts[a + 1], sts[a].next, steps[a].event.id)
    ensures Gathered(sts, steps, a, sts[a].next) == ""
  {
    RunPlain(sts, steps, env, a);
    RunTold(sts, steps, env, a, sts[a].next);
    OpenStepById(sts[a], steps[a], env);
  }

  lemma {:induction false} OpenStepById(st: State, step: Step, env: Env)
    requires Plain(st) && Ordered(st) && Apply(st, step, env).next > st.next
    requires step.OnEvent? ==> step.event.id != "" && !ReusesIndex(st, step.event) && Handle(st, step.event, env).Done?
    ensures step.OnEvent? && StepById(st, step, Apply(st, step, env), st.next, step.event.id)
  {
    var t := Apply(st, step, env);
    StepPlain(st, step, env);
    OpeningTakes(st, step, env);
    if Present(t, st.next) {
      var k :| 0 <= k < |t.queue| && t.queue[k].serial == st.next;
      assert Holds(t, st.next, t.queue[k].id);
    }
  }

  lemma {:induction false} GatheredFrom(sts: seq<State>, steps: seq<Step>, a: nat, b: nat, serial: nat, id: string)
    requires |sts| == |steps| + 1 && a < b < |sts| && StringsOnly(steps) && Gathered(sts, steps, a, serial) == ""
    requires StepById(sts[a], steps[a], sts[a + 1], serial, id)
    requires forall j :: a < j < b && Holds(sts[j], serial, id) ==> StepById(sts[j], steps[j], sts[j + 1], serial, id)
    requires forall j :: a < j < b ==> Present(sts[j], serial)
    ensures Present(sts[b], serial) ==> Holds(sts[b], serial, id)
    ensures Gathered(sts, steps, b, serial) == TextsFor(steps[a..b], id)
  {
    assert steps[a..b][..b - 1 - a] == steps[a..b - 1];
    if b > a + 1 {
      GatheredFrom(sts, steps, a, b - 1, serial, id);
    } else {
      assert TextsFor(steps[a..a], id) == "";
    }
    assert StepById(sts[b - 1], steps[b - 1], sts[b], serial, id);
  }

  /**
   * In a stream whose events carry identifiers and string fragments, a call opened in step a and pending until step b
   * has collected, pending or emitted by step b, the texts of the events with its identifier, in their order.
   */
  lemma {:induction false} ArgumentsByIdentifier(sts: seq<State>, steps: seq<Step>, env: Env, a: nat, b: nat)
    requires IsRun(sts, steps, env) && Identified(sts, steps) && StringsOnly(steps)
    requires a < b < |sts| && Undisturbed(sts, steps, env, b) && sts[a].next < sts[a + 1].next
    requires forall j :: a < j < b ==> Present(sts[j], sts[a].next)
    ensures steps[a].OnEvent? && Told(sts[b], sts[a].next, TextsFor(steps[a..b], steps[a].event.id))
  {
    var serial := sts[a].next;
    OpeningStepById(sts, steps, env, a);
    var id := steps[a].event.id;
    forall j | a < j < b && Holds(sts[j], serial, id)
      ensures StepById(sts[j], steps[j], sts[j + 1], serial, id)
    {
      PendingStepById(sts, steps, env, j, serial, id);
    }
    GatheredFrom(sts, steps, a, b, serial, id);
    RunTold(sts, steps, env, b, serial);
  }
}
