/** Assembly of interleaved tool-call fragments (proxy/kiro.go). */
module ToolAssembly {
  import opened Common

  /** A pending call; serial numbers calls in the order in which the upstream introduced them. */
  datatype Call = Call(
    serial: nat, id: string, name: string, index: string, buffer: string, generated: bool, started: bool, stopped: bool)

  /** What the client is told. */
  datatype Out =
    | Start(serial: nat, id: string, name: string)
    | Delta(serial: nat, id: string, text: string)
    | Stop(serial: nat, id: string)
    | Use(serial: nat, id: string, name: string, args: string)

  /** Whole is a non-empty JSON object or array, marshalled. */
  datatype Input = NoInput | Text(text: string) | Whole(json: string)

  /** A tool-use payload; absent fields are empty. A call without an identifier gets the spare one. */
  datatype Event = Event(id: string, name: string, index: string, stop: bool, input: Input, spare: string)

  datatype Boundary = NoBoundary | TruncatedFrame | CleanEof | ExplicitToolUse | OutputLimit | ConflictingStop

  /** Decisions taken outside: JSON objects, blank trimming and the tools that accept empty arguments. */
  datatype Env = Env(isObject: string -> bool, trim: string -> string, allowsEmpty: (string, Boundary) -> bool)

  /** Overwritten collects the calls whose streamed arguments a whole value replaced. */
  datatype State = State(queue: seq<Call>, next: nat, log: seq<Out>, overwritten: set<nat>)

  datatype Outcome = Done(st: State) | Failed(st: State)

  const INITIAL := State([], 0, [], {})

  // ------------------------------------------------------------------ operations

  function Put(st: State, at: nat, c: Call): State
    requires at < |st.queue|
  {
    st.(queue := st.queue[at := c])
  }

  function Introduce(st: State, id: string, name: string, index: string, generated: bool): State {
    st.(queue := st.queue + [Call(st.next, id, name, index, "", generated, false, false)], next := st.next + 1)
  }

  function Opening(c: Call): seq<Out> {
    if c.started then []
    else [Start(c.serial, c.id, c.name)] + if c.buffer == "" then [] else [Delta(c.serial, c.id, c.buffer)]
  }

  function Begin(st: State, at: nat): State
    requires at < |st.queue|
  {
    var c := st.queue[at];
    State(st.queue[at := c.(started := true)], st.next, st.log + Opening(c), st.overwritten)
  }

  function Feed(st: State, at: nat, input: Input): State
    requires at < |st.queue|
  {
    var c := st.queue[at];
    match input
    case NoInput => st
    case Text(t) =>
      State(st.queue[at := c.(buffer := c.buffer + t)], st.next,
            st.log + (if t != "" && c.started then [Delta(c.serial, c.id, t)] else []), st.overwritten)
    case Whole(j) =>
      State(st.queue[at := c.(buffer := j)], st.next,
            st.log + (if c.started then [Delta(c.serial, c.id, j)] else []),
            st.overwritten + if c.started && c.buffer != "" then {c.serial} else {})
  }

  /** What finishing a call tells the client; nothing for malformed arguments. */
  function Finish(c: Call, env: Env): Option<seq<Out>> {
    if c.name == "" then Some([])
    else if c.buffer != "" && !env.isObject(c.buffer) then None
    else Some(Opening(c) + [Stop(c.serial, c.id), Use(c.serial, c.id, c.name, c.buffer)])
  }

  function Pop(st: State, outs: seq<Out>): State
    requires st.queue != []
  {
    st.(queue := st.queue[1..], log := st.log + outs)
  }

  function Flush(st: State, env: Env): Outcome
    decreases |st.queue|
  {
    if st.queue == [] || !st.queue[0].stopped then Done(st) else
      var outs := Finish(st.queue[0], env);
      if outs.None? then Failed(st) else Flush(Pop(st, outs.value), env)
  }

  predicate Allows(b: Boundary) {
    b.TruncatedFrame? || b.CleanEof? || b.ExplicitToolUse? || b.OutputLimit?
  }

  predicate ArgumentsComplete(c: Call, env: Env) {
    env.trim(c.name) != "" && env.trim(c.buffer) != "" && env.isObject(env.trim(c.buffer))
  }

  predicate Recoverable(c: Call, b: Boundary, env: Env) {
    || c.stopped
    || (Allows(b) && ArgumentsComplete(c, env))
    || (c.buffer == "" && env.allowsEmpty(c.name, b))
  }

  /** End-of-stream recovery from the head of the queue, and how many calls it took. */
  function Recover(st: State, b: Boundary, env: Env): (State, nat)
    decreases |st.queue|
  {
    if st.queue == [] || !Recoverable(st.queue[0], b, env) then (st, 0) else
      var outs := Finish(st.queue[0], env);
      if outs.None? then (st, 0) else
        var (s, n) := Recover(Pop(st, outs.value), b, env);
        (s, n + 1)
  }

  function ById(q: seq<Call>, id: string, i: nat := 0): (r: Option<nat>)
    ensures r.Some? ==> i <= r.value < |q| && q[r.value].id == id
    ensures r.None? ==> forall k :: i <= k < |q| ==> q[k].id != id
    decreases |q| - i
  {
    if i >= |q| then None else if q[i].id == id then Some(i) else ById(q, id, i + 1)
  }

  function ByIndex(q: seq<Call>, index: string, i: nat := 0): (r: Option<nat>)
    ensures r.Some? ==> i <= r.value < |q| && q[r.value].index == index
                        && forall k :: i <= k < r.value ==> q[k].index != index
    ensures r.None? ==> forall k :: i <= k < |q| ==> q[k].index != index
    decreases |q| - i
  {
    if i >= |q| then None else if q[i].index == index then Some(i) else ByIndex(q, index, i + 1)
  }

  function Rekeyed(st: State, at: nat, id: string): State
    requires at < |st.queue|
  {
    Put(st, at, st.queue[at].(id := id, generated := false))
  }

  datatype Located = Found(st: State, at: nat) | Nothing(st: State) | Broken(st: State)

  /** The call an event belongs to: by identifier, by content block, by position, or a new one. */
  function Locate(st: State, ev: Event, env: Env): (r: Located)
    ensures r.Found? ==> r.at < |r.st.queue|
  {
    var q := st.queue;
    if ev.id != "" then
      var byId := ById(q, ev.id);
      var byIndex := if ev.index == "" then None else ByIndex(q, ev.index);
      if byId.Some? then Found(st, byId.value)
      else if byIndex.Some? then Found(Rekeyed(st, byIndex.value, ev.id), byIndex.value)
      else if q != [] && q[|q| - 1].generated && (ev.name == "" || q[|q| - 1].name == ev.name)
      then Found(Rekeyed(st, |q| - 1, ev.id), |q| - 1)
      else Found(Introduce(st, ev.id, ev.name, ev.index, false), |q|)
    else if ev.index != "" then
      var byIndex := ByIndex(q, ev.index);
      if byIndex.Some? then Found(st, byIndex.value)
      else if ev.name != "" then Found(Introduce(st, ev.spare, ev.name, ev.index, true), |q|)
      else Nothing(st)
    else if q != [] then
      if ev.name != "" && q[|q| - 1].name != ev.name then
        var flushed := Flush(Put(st, |q| - 1, q[|q| - 1].(stopped := true)), env);
        if flushed.Failed? then Broken(flushed.st)
        else Found(Introduce(flushed.st, ev.spare, ev.name, "", true), |flushed.st.queue|)
      else Found(st, |q| - 1)
    else if ev.name != "" then Found(Introduce(st, ev.spare, ev.name, "", true), |q|)
    else Nothing(st)
  }

  function Labelled(c: Call, ev: Event): Call {
    c.(name := if c.name == "" then ev.name else c.name, index := if c.index == "" then ev.index else c.index)
  }

  function Opened(st: State, at: nat): State
    requires at < |st.queue|
  {
    var c := st.queue[at];
    if !c.started && !c.generated && c.name != "" then Begin(st, at) else st
  }

  /** The located call takes the event's name, content block, input and stop mark. */
  function Absorb(st: State, at: nat, ev: Event, env: Env): Outcome
    requires at < |st.queue|
  {
    var c := st.queue[at];
    if c.name == "" && ev.name == "" && ev.stop then Failed(st)
    else
      var fed := Feed(Opened(Put(st, at, Labelled(c, ev)), at), at, ev.input);
      if ev.stop then Flush(Put(fed, at, fed.queue[at].(stopped := true)), env) else Done(fed)
  }

  function Handle(st: State, ev: Event, env: Env): Outcome {
    var l := Locate(st, ev, env);
    match l
    case Broken(s) => Failed(s)
    case Nothing(s) => if ev.stop then Done(s) else Failed(s)
    case Found(s, at) => Absorb(s, at, ev, env)
  }

  // ------------------------------------------------------------------- invariant

  /** Everything streamed to the client for one call. */
  function Deltas(log: seq<Out>, serial: nat): string {
    if log == [] then "" else
      var o := log[|log| - 1];
      Deltas(log[..|log| - 1], serial) + if o.Delta? && o.serial == serial then o.text else ""
  }

  predicate Silent(log: seq<Out>, serial: nat) {
    forall i :: 0 <= i < |log| ==> log[i].serial != serial
  }

  /** The deltas of a call spell its arguments, or more than them once a whole value replaced a streamed one. */
  predicate Spelled(st: State, serial: nat, args: string) {
    if serial in st.overwritten then |Deltas(st.log, serial)| > |args| else Deltas(st.log, serial) == args
  }

  predicate Streamed(st: State, c: Call) {
    if c.started then !c.generated && Spelled(st, c.serial, c.buffer)
    else Silent(st.log, c.serial) && c.serial !in st.overwritten
  }

  predicate Ordered(st: State) {
    && (forall i :: 0 <= i < |st.queue| ==> st.queue[i].serial < st.next)
    && (forall i, j :: 0 <= i < j < |st.queue| ==> st.queue[i].serial < st.queue[j].serial)
    && (forall i :: 0 <= i < |st.log| ==> st.log[i].serial < st.next)
    && (forall s :: s in st.overwritten ==> s < st.next)
    && (forall i, k :: 0 <= i < |st.log| && st.log[i].Use? && 0 <= k < |st.queue| ==>
        st.log[i].serial < st.queue[k].serial)
    && (forall i, j :: 0 <= i < j < |st.log| && st.log[i].Use? && st.log[j].Use? ==>
        st.log[i].serial < st.log[j].serial)
  }

  predicate GoodUse(st: State, o: Out, env: Env)
    requires o.Use?
  {
    o.name != "" && (o.args == "" || env.isObject(o.args)) && Spelled(st, o.serial, o.args)
  }

  predicate SameIds(st: State) {
    && (forall i, j :: 0 <= i < |st.log| && 0 <= j < |st.log| && st.log[i].serial == st.log[j].serial ==>
        st.log[i].id == st.log[j].id)
    && (forall i, k :: 0 <= i < |st.log| && 0 <= k < |st.queue| && st.log[i].serial == st.queue[k].serial
                       ==> st.log[i].id == st.queue[k].id)
  }

  /** The invariant; a stable run also keeps one identifier per call. */
  ghost predicate Inv(st: State, env: Env, stable: bool) {
    && Ordered(st)
    && (forall k :: 0 <= k < |st.queue| ==> Streamed(st, st.queue[k]))
    && (forall i :: 0 <= i < |st.log| && st.log[i].Use? ==> GoodUse(st, st.log[i], env))
    && (stable ==> SameIds(st))
  }

  predicate Emitted(st: State, serial: nat) {
    exists i :: 0 <= i < |st.log| && st.log[i].Use? && st.log[i].serial == serial
  }

  predicate Pending(st: State, serial: nat, name: string) {
    exists k :: 0 <= k < |st.queue| && st.queue[k].serial == serial && st.queue[k].name == name
  }

  /** Nothing said is unsaid, and a named call stays pending under its name or is emitted. */
  ghost predicate Progress(s: State, t: State) {
    && s.log <= t.log && s.next <= t.next
    && forall k :: 0 <= k < |s.queue| && s.queue[k].name != "" ==>
         Pending(t, s.queue[k].serial, s.queue[k].name) || Emitted(t, s.queue[k].serial)
  }

  lemma {:induction false} ProgressTrans(s: State, t: State, u: State)
    requires Progress(s, t) && Progress(t, u)
    ensures Progress(s, u)
  {
    forall k | 0 <= k < |s.queue| && s.queue[k].name != ""
      ensures Pending(u, s.queue[k].serial, s.queue[k].name) || Emitted(u, s.queue[k].serial)
    {
      var c := s.queue[k];
      if Pending(t, c.serial, c.name) {
        var m :| 0 <= m < |t.queue| && t.queue[m].serial == c.serial && t.queue[m].name == c.name;
      } else {
        StaysEmitted(t, u, c.serial);
      }
    }
  }

  lemma {:induction false} StaysEmitted(t: State, u: State, serial: nat)
    requires Emitted(t, serial) && t.log <= u.log
    ensures Emitted(u, serial)
  {
    var i :| 0 <= i < |t.log| && t.log[i].Use? && t.log[i].serial == serial;
    assert u.log[i] == t.log[i];
  }

  // ------------------------------------------------------------------ small steps

  lemma {:induction false} DeltasConcat(log: seq<Out>, outs: seq<Out>, serial: nat)
    ensures Deltas(log + outs, serial) == Deltas(log, serial) + Deltas(outs, serial)
  {
    if outs == [] {
      assert log + outs == log;
    } else {
      assert (log + outs)[..|log + outs| - 1] == log + outs[..|outs| - 1];
      DeltasConcat(log, outs[..|outs| - 1], serial);
    }
  }

  lemma {:induction false} SilentDeltas(log: seq<Out>, serial: nat)
    requires Silent(log, serial)
    ensures Deltas(log, serial) == ""
  {
    if log != [] {
      SilentDeltas(log[..|log| - 1], serial);
    }
  }

  /** Every output concerns one call. */
  predicate About(outs: seq<Out>, serial: nat, id: string) {
    forall i :: 0 <= i < |outs| ==> outs[i].serial == serial && outs[i].id == id
  }

  predicate NoUse(outs: seq<Out>) {
    forall i :: 0 <= i < |outs| ==> !outs[i].Use?
  }

  lemma {:induction false} OthersUnheard(st: State, outs: seq<Out>, ow: set<nat>, serial: nat, id: string, other: nat)
    requires About(outs, serial, id) && other != serial && (other in ow <==> other in st.overwritten)
    ensures Deltas(st.log + outs, other) == Deltas(st.log, other)
    ensures Silent(st.log + outs, other) <==> Silent(st.log, other)
    ensures forall args :: Spelled(State(st.queue, st.next, st.log + outs, ow), other, args) <==>
        Spelled(st, other, args)
  {
    DeltasConcat(st.log, outs, other);
    SilentDeltas(outs, other);
    if Silent(st.log + outs, other) {
      forall i | 0 <= i < |st.log| ensures st.log[i].serial != other {
        assert (st.log + outs)[i] == st.log[i];
      }
    }
  }

  function Advanced(st: State, at: nat, c: Call, outs: seq<Out>, ow: set<nat>): State
    requires at < |st.queue|
  {
    State(st.queue[at := c], st.next, st.log + outs, ow)
  }

  /** A step that concerns one pending call and does not finish it. */
  predicate Advances(st: State, at: nat, c: Call, outs: seq<Out>, ow: set<nat>, stable: bool) {
    && at < |st.queue| && c.serial == st.queue[at].serial
    && (st.queue[at].name != "" ==> c.name == st.queue[at].name)
    && About(outs, c.serial, c.id) && NoUse(outs)
    && (ow == st.overwritten || ow == st.overwritten + {c.serial})
    && (stable && st.queue[at].started ==> c.id == st.queue[at].id)
  }

  lemma {:induction false} AdvancedOrdered(st: State, at: nat, c: Call, outs: seq<Out>, ow: set<nat>, stable: bool)
    requires Ordered(st) && Advances(st, at, c, outs, ow, stable)
    ensures Ordered(Advanced(st, at, c, outs, ow))
  {
    var t := Advanced(st, at, c, outs, ow);
    assert forall k :: 0 <= k < |st.queue| ==> t.queue[k].serial == st.queue[k].serial;
    assert forall i :: 0 <= i < |t.log| && t.log[i].Use? ==> i < |st.log| && t.log[i] == st.log[i];
  }

  lemma {:induction false} AdvancedStreamed(st: State, env: Env, at: nat, c: Call, outs: seq<Out>, ow: set<nat>,
      stable: bool, k: nat)
    requires Inv(st, env, stable) && Advances(st, at, c, outs, ow, stable) && k < |st.queue| && k != at
    ensures Streamed(Advanced(st, at, c, outs, ow), st.queue[k])
  {
    OthersUnheard(st, outs, ow, c.serial, c.id, st.queue[k].serial);
    assert Streamed(st, st.queue[k]);
  }

  lemma {:induction false} AdvancedUse(st: State, env: Env, at: nat, c: Call, outs: seq<Out>, ow: set<nat>,
      stable: bool, i: nat)
    requires Inv(st, env, stable) && Advances(st, at, c, outs, ow, stable) && i < |st.log| && st.log[i].Use?
    ensures GoodUse(Advanced(st, at, c, outs, ow), st.log[i], env)
  {
    OthersUnheard(st, outs, ow, c.serial, c.id, st.log[i].serial);
    assert GoodUse(st, st.log[i], env);
  }

  lemma {:induction false} AdvancedIds(st: State, env: Env, at: nat, c: Call, outs: seq<Out>, ow: set<nat>)
    requires Inv(st, env, true) && Advances(st, at, c, outs, ow, true)
    ensures SameIds(Advanced(st, at, c, outs, ow))
  {
    var t := Advanced(st, at, c, outs, ow);
    forall i | 0 <= i < |t.log| && t.log[i].serial == c.serial
      ensures t.log[i].id == c.id
    {
      if i < |st.log| {
        assert t.log[i] == st.log[i];
        assert Streamed(st, st.queue[at]);
      }
    }
    forall i, k | 0 <= i < |t.log| && 0 <= k < |t.queue| && t.log[i].serial == t.queue[k].serial
      ensures t.log[i].id == t.queue[k].id
    {
      if k != at {
        assert t.queue[k].serial != c.serial;
        assert i < |st.log|;
      }
    }
    forall i, j | 0 <= i < |t.log| && 0 <= j < |t.log| && t.log[i].serial == t.log[j].serial
      ensures t.log[i].id == t.log[j].id
    {
      if t.log[i].serial != c.serial {
        assert i < |st.log| && j < |st.log|;
      }
    }
  }

  lemma {:induction false} AdvancedProgress(st: State, at: nat, c: Call, outs: seq<Out>, ow: set<nat>, stable: bool)
    requires Advances(st, at, c, outs, ow, stable)
    ensures Progress(st, Advanced(st, at, c, outs, ow))
  {
    var t := Advanced(st, at, c, outs, ow);
    forall k | 0 <= k < |st.queue| && st.queue[k].name != ""
      ensures Pending(t, st.queue[k].serial, st.queue[k].name)
    {
      assert t.queue[k].serial == st.queue[k].serial && t.queue[k].name == st.queue[k].name;
    }
  }

  lemma {:induction false} Advance(st: State, env: Env, at: nat, c: Call, outs: seq<Out>, ow: set<nat>, stable: bool)
    requires Inv(st, env, stable) && Advances(st, at, c, outs, ow, stable)
    requires Streamed(Advanced(st, at, c, outs, ow), c)
    ensures Inv(Advanced(st, at, c, outs, ow), env, stable) && Progress(st, Advanced(st, at, c, outs, ow))
  {
    var t := Advanced(st, at, c, outs, ow);
    AdvancedOrdered(st, at, c, outs, ow, stable);
    AdvancedProgress(st, at, c, outs, ow, stable);
    forall k | 0 <= k < |t.queue| ensures Streamed(t, t.queue[k]) {
      if k != at {
        AdvancedStreamed(st, env, at, c, outs, ow, stable, k);
      }
    }
    forall i | 0 <= i < |t.log| && t.log[i].Use? ensures GoodUse(t, t.log[i], env) {
      assert i < |st.log|;
      AdvancedUse(st, env, at, c, outs, ow, stable, i);
    }
    if stable {
      AdvancedIds(st, env, at, c, outs, ow);
    }
  }

  lemma {:induction false} OpeningSpells(c: Call)
    requires !c.started
    ensures Deltas(Opening(c), c.serial) == c.buffer
    ensures About(Opening(c), c.serial, c.id) && NoUse(Opening(c))
  {
    var start := [Start(c.serial, c.id, c.name)];
    assert start[..0] == [];
    assert Deltas(start, c.serial) == "";
    if c.buffer != "" {
      assert (start + [Delta(c.serial, c.id, c.buffer)])[..1] == start;
    }
  }

  lemma {:induction false} BeginKeeps(st: State, env: Env, at: nat, stable: bool)
    requires Inv(st, env, stable) && at < |st.queue| && !st.queue[at].started
    ensures var c := st.queue[at].(started := true, generated := false);
      var t := Advanced(st, at, c, Opening(st.queue[at]), st.overwritten);
      Inv(t, env, stable) && Progress(st, t)
  {
    var c := st.queue[at];
    assert Streamed(st, c);
    var outs := Opening(c);
    OpeningSpells(c);
    BeginSpells(st, c, outs);
    var open := c.(started := true, generated := false);
    assert Streamed(Advanced(st, at, open, outs, st.overwritten), open);
    Advance(st, env, at, open, outs, st.overwritten, stable);
  }

  lemma {:induction false} BeginSpells(st: State, c: Call, outs: seq<Out>)
    requires Silent(st.log, c.serial) && Deltas(outs, c.serial) == c.buffer
    ensures Deltas(st.log + outs, c.serial) == c.buffer
  {
    DeltasConcat(st.log, outs, c.serial);
    SilentDeltas(st.log, c.serial);
  }

  lemma {:induction false} OneDelta(serial: nat, id: string, text: string)
    ensures Deltas([Delta(serial, id, text)], serial) == text
  {
    assert [Delta(serial, id, text)][..0] == [];
  }

  /** A fragment that reaches a started call is streamed; otherwise nothing is. */
  function FedOuts(c: Call, text: string, streams: bool): seq<Out> {
    if streams && c.started then [Delta(c.serial, c.id, text)] else []
  }

  lemma {:induction false} FedDeltas(st: State, c: Call, text: string, streams: bool)
    ensures Deltas(st.log + FedOuts(c, text, streams), c.serial)
         == Deltas(st.log, c.serial) + if streams && c.started then text else ""
    ensures !c.started && Silent(st.log, c.serial) ==> Silent(st.log + FedOuts(c, text, streams), c.serial)
  {
    DeltasConcat(st.log, FedOuts(c, text, streams), c.serial);
    OneDelta(c.serial, c.id, text);
  }

  lemma {:induction false} FedStreamed(st: State, at: nat, input: Input)
    requires at < |st.queue| && Streamed(st, st.queue[at])
    ensures Streamed(Feed(st, at, input), Feed(st, at, input).queue[at])
  {
    var c := st.queue[at];
    match input
    case NoInput =>
    case Text(t) => FedDeltas(st, c, t, t != "");
    case Whole(j) => FedDeltas(st, c, j, true);
  }

  lemma {:induction false} FeedIsAdvance(st: State, at: nat, input: Input, stable: bool)
      returns (c: Call, outs: seq<Out>, ow: set<nat>)
    requires at < |st.queue|
    ensures Advances(st, at, c, outs, ow, stable) && Feed(st, at, input) == Advanced(st, at, c, outs, ow)
  {
    var b := st.queue[at];
    match input
    case NoInput =>
      c, outs, ow := b, [], st.overwritten;
      assert st.queue[at := b] == st.queue && st.log + [] == st.log;
    case Text(t) =>
      c, outs, ow := b.(buffer := b.buffer + t), FedOuts(b, t, t != ""), st.overwritten;
    case Whole(j) =>
      c, outs := b.(buffer := j), FedOuts(b, j, true);
      ow := st.overwritten + if b.started && b.buffer != "" then {b.serial} else {};
  }

  lemma {:induction false} FeedKeeps(st: State, env: Env, at: nat, input: Input, stable: bool)
    requires Inv(st, env, stable) && at < |st.queue|
    ensures Inv(Feed(st, at, input), env, stable) && Progress(st, Feed(st, at, input))
  {
    assert Streamed(st, st.queue[at]);
    FedStreamed(st, at, input);
    var c, outs, ow := FeedIsAdvance(st, at, input, stable);
    Advance(st, env, at, c, outs, ow, stable);
  }

  /** Labels, stop marks and new identifiers say nothing to the client. */
  lemma {:induction false} PutKeeps(st: State, env: Env, at: nat, c: Call, stable: bool)
    requires Inv(st, env, stable) && Advances(st, at, c, [], st.overwritten, stable)
    requires c.buffer == st.queue[at].buffer && c.started == st.queue[at].started
        && (c.generated ==> st.queue[at].generated)
    ensures Inv(Put(st, at, c), env, stable) && Progress(st, Put(st, at, c))
  {
    assert Streamed(st, st.queue[at]);
    assert st.log + [] == st.log;
    Advance(st, env, at, c, [], st.overwritten, stable);
  }

  lemma {:induction false} IntroduceKeeps(st: State, env: Env, id: string, name: string, index: string,
      generated: bool, stable: bool)
    requires Inv(st, env, stable)
    ensures var t := Introduce(st, id, name, index, generated); Inv(t, env, stable) && Progress(st, t)
  {
    var t := Introduce(st, id, name, index, generated);
    forall k | 0 <= k < |t.queue| ensures Streamed(t, t.queue[k]) {
      if k < |st.queue| {
        assert Streamed(st, st.queue[k]);
      }
    }
    forall i | 0 <= i < |t.log| && t.log[i].Use? ensures GoodUse(t, t.log[i], env) {
      assert GoodUse(st, st.log[i], env);
    }
    forall k | 0 <= k < |st.queue| && st.queue[k].name != ""
      ensures Pending(t, st.queue[k].serial, st.queue[k].name)
    {
      assert t.queue[k] == st.queue[k];
    }
  }

  // -------------------------------------------------------------- leaving the queue

  lemma {:induction false} PopKeepsOrder(st: State, outs: seq<Out>)
    requires Ordered(st) && st.queue != []
    requires forall i :: 0 <= i < |outs| ==> outs[i].serial == st.queue[0].serial
    requires forall i, j :: 0 <= i < j < |outs| ==> !(outs[i].Use? && outs[j].Use?)
    ensures Ordered(Pop(st, outs))
  {
  }

  lemma {:induction false} PopKeepsOthers(st: State, env: Env, outs: seq<Out>, stable: bool)
    requires Inv(st, env, stable) && st.queue != [] && About(outs, st.queue[0].serial, st.queue[0].id)
    ensures forall k :: 0 < k < |st.queue| ==> Streamed(Pop(st, outs), st.queue[k])
    ensures forall i :: 0 <= i < |st.log| && st.log[i].Use? ==> GoodUse(Pop(st, outs), st.log[i], env)
    ensures stable ==> SameIds(Pop(st, outs))
  {
    var c := st.queue[0];
    forall k | 0 < k < |st.queue| ensures Streamed(Pop(st, outs), st.queue[k]) {
      OthersUnheard(st, outs, st.overwritten, c.serial, c.id, st.queue[k].serial);
      assert Streamed(st, st.queue[k]);
    }
    forall i | 0 <= i < |st.log| && st.log[i].Use? ensures GoodUse(Pop(st, outs), st.log[i], env) {
      OthersUnheard(st, outs, st.overwritten, c.serial, c.id, st.log[i].serial);
      assert GoodUse(st, st.log[i], env);
    }
    if stable {
      PopKeepsIds(st, outs);
    }
  }

  lemma {:induction false} PopKeepsIds(st: State, outs: seq<Out>)
    requires Ordered(st) && SameIds(st) && st.queue != [] && About(outs, st.queue[0].serial, st.queue[0].id)
    ensures SameIds(Pop(st, outs))
  {
    var c, t := st.queue[0], Pop(st, outs);
    forall i | 0 <= i < |t.log| && t.log[i].serial == c.serial ensures t.log[i].id == c.id {
      if i < |st.log| {
        assert t.log[i] == st.log[i];
      }
    }
    forall i, j | 0 <= i < |t.log| && 0 <= j < |t.log| && t.log[i].serial == t.log[j].serial
        ensures t.log[i].id == t.log[j].id {
      if t.log[i].serial != c.serial {
        assert i < |st.log| && j < |st.log|;
      }
    }
    forall i, k | 0 <= i < |t.log| && 0 <= k < |t.queue| && t.log[i].serial == t.queue[k].serial
        ensures t.log[i].id == t.queue[k].id {
      assert t.queue[k] == st.queue[k + 1];
      assert i < |st.log|;
    }
  }

  lemma {:induction false} PopProgress(st: State, outs: seq<Out>)
    requires st.queue != []
    requires st.queue[0].name == "" || exists i ::
        0 <= i < |outs| && outs[i].Use? && outs[i].serial == st.queue[0].serial
    ensures Progress(st, Pop(st, outs))
  {
    var t := Pop(st, outs);
    forall k | 0 <= k < |st.queue| && st.queue[k].name != ""
      ensures Pending(t, st.queue[k].serial, st.queue[k].name) || Emitted(t, st.queue[k].serial)
    {
      if k > 0 {
        assert t.queue[k - 1] == st.queue[k];
      } else {
        var i :| 0 <= i < |outs| && outs[i].Use? && outs[i].serial == st.queue[0].serial;
        assert t.log[|st.log| + i] == outs[i];
      }
    }
  }

  lemma {:induction false} ClosingIsSilent(c: Call)
    ensures Deltas([Stop(c.serial, c.id), Use(c.serial, c.id, c.name, c.buffer)], c.serial) == ""
  {
    var stop := [Stop(c.serial, c.id)];
    var use := [Use(c.serial, c.id, c.name, c.buffer)];
    assert stop[..0] == [] && use[..0] == [];
    DeltasConcat(stop, use, c.serial);
    assert stop + use == [Stop(c.serial, c.id), Use(c.serial, c.id, c.name, c.buffer)];
  }

  lemma {:induction false} PopStarted(st: State, env: Env, stable: bool)
    requires Inv(st, env, stable) && st.queue != [] && st.queue[0].started && st.queue[0].name != ""
    requires st.queue[0].buffer == "" || env.isObject(st.queue[0].buffer)
    ensures var c := st.queue[0];
      var t := Pop(st, [Stop(c.serial, c.id), Use(c.serial, c.id, c.name, c.buffer)]);
      Inv(t, env, stable) && Progress(st, t)
  {
    var c := st.queue[0];
    var use := Use(c.serial, c.id, c.name, c.buffer);
    var outs := [Stop(c.serial, c.id), use];
    var t := Pop(st, outs);
    PopKeepsOrder(st, outs);
    PopKeepsOthers(st, env, outs, stable);
    PopProgress(st, outs) by {
      assert outs[1].Use?;
    }
    DeltasConcat(st.log, outs, c.serial);
    ClosingIsSilent(c);
    assert Streamed(st, c);
    assert GoodUse(t, use, env);
  }

  /** Finishing the head keeps the invariant: an unnamed call leaves silently, a named one is emitted. */
  lemma {:induction false} FinishKeeps(st: State, env: Env, stable: bool)
    requires Inv(st, env, stable) && st.queue != [] && Finish(st.queue[0], env).Some?
    ensures var t := Pop(st, Finish(st.queue[0], env).value); Inv(t, env, stable) && Progress(st, t)
  {
    var c := st.queue[0];
    if c.name == "" {
      PopUnnamed(st, env, stable);
    } else if c.started {
      PopStarted(st, env, stable);
      assert Finish(c, env).value == Closing(c);
    } else {
      PopUnstarted(st, env, stable);
    }
  }

  function Closing(c: Call): seq<Out> {
    [Stop(c.serial, c.id), Use(c.serial, c.id, c.name, c.buffer)]
  }

  lemma {:induction false} PopUnnamed(st: State, env: Env, stable: bool)
    requires Inv(st, env, stable) && st.queue != [] && st.queue[0].name == ""
    ensures Inv(Pop(st, []), env, stable) && Progress(st, Pop(st, []))
  {
    PopKeepsOrder(st, []);
    PopKeepsOthers(st, env, [], stable);
    PopProgress(st, []);
    assert st.log + [] == st.log;
  }

  lemma {:induction false} PopUnstarted(st: State, env: Env, stable: bool)
    requires Inv(st, env, stable) && st.queue != [] && !st.queue[0].started && st.queue[0].name != ""
    requires st.queue[0].buffer == "" || env.isObject(st.queue[0].buffer)
    ensures var t := Pop(st, Opening(st.queue[0]) + Closing(st.queue[0])); Inv(t, env, stable) && Progress(st, t)
  {
    var c := st.queue[0];
    BeginKeeps(st, env, 0, stable);
    var b := Advanced(st, 0, c.(started := true, generated := false), Opening(c), st.overwritten);
    PopStarted(b, env, stable);
    BeginThenPop(st, c, Opening(c), Closing(c));
    ProgressTrans(st, b, Pop(b, Closing(c)));
  }

  lemma {:induction false} BeginThenPop(st: State, c: Call, opening: seq<Out>, closing: seq<Out>)
    requires st.queue != []
    ensures Pop(Advanced(st, 0, c.(started := true, generated := false), opening, st.overwritten), closing)
        == Pop(st, opening + closing)
  {
    assert st.queue[0 := c.(started := true, generated := false)][1..] == st.queue[1..];
    assert st.log + opening + closing == st.log + (opening + closing);
  }

  lemma {:induction false} FlushKeeps(st: State, env: Env, stable: bool)
    requires Inv(st, env, stable)
    ensures Inv(Flush(st, env).st, env, stable) && Progress(st, Flush(st, env).st)
    decreases |st.queue|
  {
    if st.queue == [] || !st.queue[0].stopped || Finish(st.queue[0], env).None? {
      ProgressReflexive(st);
    } else {
      var t := Pop(st, Finish(st.queue[0], env).value);
      FinishKeeps(st, env, stable);
      FlushKeeps(t, env, stable);
      ProgressTrans(st, t, Flush(t, env).st);
    }
  }

  lemma {:induction false} ProgressReflexive(st: State)
    ensures Progress(st, st)
  {
  }

  lemma {:induction false} RecoverKeeps(st: State, b: Boundary, env: Env, stable: bool)
    requires Inv(st, env, stable)
    ensures Inv(Recover(st, b, env).0, env, stable) && Progress(st, Recover(st, b, env).0)
    decreases |st.queue|
  {
    if st.queue == [] || !Recoverable(st.queue[0], b, env) || Finish(st.queue[0], env).None? {
      ProgressReflexive(st);
    } else {
      var t := Pop(st, Finish(st.queue[0], env).value);
      FinishKeeps(st, env, stable);
      RecoverKeeps(t, b, env, stable);
      ProgressTrans(st, t, Recover(t, b, env).0);
    }
  }

  // ---------------------------------------------------------------------- events

  /** A new identifier arrives on the content block of a pending call that already has a real one. */
  predicate ReusesIndex(st: State, ev: Event) {
    && ev.id != "" && ById(st.queue, ev.id).None?
    && ev.index != "" && ByIndex(st.queue, ev.index).Some?
    && !st.queue[ByIndex(st.queue, ev.index).value].generated
  }

  lemma {:induction false} RekeyKeeps(st: State, env: Env, at: nat, id: string, stable: bool)
    requires Inv(st, env, stable) && at < |st.queue| && (stable ==> st.queue[at].generated)
    ensures Inv(Rekeyed(st, at, id), env, stable) && Progress(st, Rekeyed(st, at, id))
  {
    assert Streamed(st, st.queue[at]);
    PutKeeps(st, env, at, st.queue[at].(id := id, generated := false), stable);
  }

  lemma {:induction false} LocateKeeps(st: State, ev: Event, env: Env, stable: bool)
    requires Inv(st, env, stable) && (stable ==> !ReusesIndex(st, ev))
    ensures Inv(Locate(st, ev, env).st, env, stable) && Progress(st, Locate(st, ev, env).st)
  {
    var q := st.queue;
    ProgressReflexive(st);
    if ev.id != "" {
      var byIndex := if ev.index == "" then None else ByIndex(q, ev.index);
      if ById(q, ev.id).Some? {
      } else if byIndex.Some? {
        RekeyKeeps(st, env, byIndex.value, ev.id, stable);
      } else if q != [] && q[|q| - 1].generated && (ev.name == "" || q[|q| - 1].name == ev.name) {
        RekeyKeeps(st, env, |q| - 1, ev.id, stable);
      } else {
        IntroduceKeeps(st, env, ev.id, ev.name, ev.index, false, stable);
      }
    } else if ev.index != "" {
      IntroduceKeeps(st, env, ev.spare, ev.name, ev.index, true, stable);
    } else {
      IntroduceKeeps(st, env, ev.spare, ev.name, "", true, stable);
      if q != [] && ev.name != "" && q[|q| - 1].name != ev.name {
        var s1 := Put(st, |q| - 1, q[|q| - 1].(stopped := true));
        PutKeeps(st, env, |q| - 1, q[|q| - 1].(stopped := true), stable);
        FlushKeeps(s1, env, stable);
        var s2 := Flush(s1, env).st;
        ProgressTrans(st, s1, s2);
        IntroduceKeeps(s2, env, ev.spare, ev.name, "", true, stable);
        ProgressTrans(st, s2, Introduce(s2, ev.spare, ev.name, "", true));
      }
    }
  }

  lemma {:induction false} OpenedKeeps(st: State, env: Env, at: nat, stable: bool)
    requires Inv(st, env, stable) && at < |st.queue|
    ensures Inv(Opened(st, at), env, stable) && Progress(st, Opened(st, at))
  {
    ProgressReflexive(st);
    var c := st.queue[at];
    if !c.started && !c.generated && c.name != "" {
      BeginKeeps(st, env, at, stable);
      assert c.(started := true, generated := false) == c.(started := true);
    }
  }

  lemma {:induction false} AbsorbKeeps(st: State, at: nat, ev: Event, env: Env, stable: bool)
    requires Inv(st, env, stable) && at < |st.queue|
    ensures Inv(Absorb(st, at, ev, env).st, env, stable) && Progress(st, Absorb(st, at, ev, env).st)
  {
    var c := st.queue[at];
    ProgressReflexive(st);
    if c.name != "" || ev.name != "" || !ev.stop {
      var s1 := Put(st, at, Labelled(c, ev));
      PutKeeps(st, env, at, Labelled(c, ev), stable);
      var s2 := Opened(s1, at);
      OpenedKeeps(s1, env, at, stable);
      ProgressTrans(st, s1, s2);
      var s3 := Feed(s2, at, ev.input);
      FeedKeeps(s2, env, at, ev.input, stable);
      ProgressTrans(st, s2, s3);
      if ev.stop {
        StopKeeps(s3, at, env, stable);
        ProgressTrans(st, s3, Flush(Put(s3, at, s3.queue[at].(stopped := true)), env).st);
      }
    }
  }

  lemma {:induction false} StopKeeps(st: State, at: nat, env: Env, stable: bool)
    requires Inv(st, env, stable) && at < |st.queue|
    ensures var t := Flush(Put(st, at, st.queue[at].(stopped := true)), env).st; Inv(t, env, stable) && Progress(st, t)
  {
    var s := Put(st, at, st.queue[at].(stopped := true));
    PutKeeps(st, env, at, st.queue[at].(stopped := true), stable);
    FlushKeeps(s, env, stable);
    ProgressTrans(st, s, Flush(s, env).st);
  }

  lemma {:induction false} HandleKeeps(st: State, ev: Event, env: Env, stable: bool)
    requires Inv(st, env, stable) && (stable ==> !ReusesIndex(st, ev))
    ensures Inv(Handle(st, ev, env).st, env, stable) && Progress(st, Handle(st, ev, env).st)
  {
    var l := Locate(st, ev, env);
    LocateKeeps(st, ev, env, stable);
    if l.Found? {
      AbsorbKeeps(l.st, l.at, ev, env, stable);
      ProgressTrans(st, l.st, Absorb(l.st, l.at, ev, env).st);
    }
  }

  // ------------------------------------------------------------------------ runs

  datatype Step = OnEvent(event: Event) | OnRecovery(boundary: Boundary)

  function Apply(st: State, step: Step, env: Env): State {
    match step
    case OnEvent(ev) => Handle(st, ev, env).st
    case OnRecovery(b) => Recover(st, b, env).0
  }

  ghost predicate IsRun(sts: seq<State>, steps: seq<Step>, env: Env) {
    && |sts| == |steps| + 1 && sts[0] == INITIAL
    && forall i :: 0 <= i < |steps| ==> sts[i + 1] == Apply(sts[i], steps[i], env)
  }

  predicate NoIndexReuse(sts: seq<State>, steps: seq<Step>) {
    |sts| == |steps| + 1 && forall i :: 0 <= i < |steps| && steps[i].OnEvent? ==> !ReusesIndex(sts[i], steps[i].event)
  }

  predicate StringsOnly(steps: seq<Step>) {
    forall i :: 0 <= i < |steps| && steps[i].OnEvent? ==> !steps[i].event.input.Whole?
  }

  lemma {:induction false} ApplyKeeps(st: State, step: Step, env: Env, stable: bool)
    requires Inv(st, env, stable) && (stable && step.OnEvent? ==> !ReusesIndex(st, step.event))
    ensures Inv(Apply(st, step, env), env, stable) && Progress(st, Apply(st, step, env))
  {
    match step
    case OnEvent(ev) => HandleKeeps(st, ev, env, stable);
    case OnRecovery(b) => RecoverKeeps(st, b, env, stable);
  }

  lemma {:induction false} RunKeeps(sts: seq<State>, steps: seq<Step>, env: Env, stable: bool, i: nat)
    requires IsRun(sts, steps, env) && (stable ==> NoIndexReuse(sts, steps)) && i < |sts|
    ensures Inv(sts[i], env, stable)
  {
    if i > 0 {
      RunKeeps(sts, steps, env, stable, i - 1);
      ApplyKeeps(sts[i - 1], steps[i - 1], env, stable);
    }
  }

  /** For every interleaving, calls are emitted at most once and in the order in which they were introduced. */
  lemma {:induction false} EmittedInOrder(sts: seq<State>, steps: seq<Step>, env: Env, i: nat, a: nat, b: nat)
    requires IsRun(sts, steps, env) && i < |sts| && a < b < |sts[i].log| && sts[i].log[a].Use? && sts[i].log[b].Use?
    ensures sts[i].log[a].serial < sts[i].log[b].serial
    ensures forall k :: 0 <= k < |sts[i].queue| ==> sts[i].log[b].serial < sts[i].queue[k].serial
  {
    RunKeeps(sts, steps, env, false, i);
  }

  lemma {:induction false} RunProgress(sts: seq<State>, steps: seq<Step>, env: Env, i: nat, j: nat)
    requires IsRun(sts, steps, env) && i <= j < |sts|
    ensures Progress(sts[i], sts[j])
  {
    if i == j {
      ProgressReflexive(sts[i]);
    } else {
      RunProgress(sts, steps, env, i, j - 1);
      RunKeeps(sts, steps, env, false, j - 1);
      ApplyKeeps(sts[j - 1], steps[j - 1], env, false);
      ProgressTrans(sts[i], sts[j - 1], sts[j]);
    }
  }

  /** A named call leaves the queue only by being emitted, once, with empty arguments or a JSON object. */
  lemma {:induction false} NamedLeavesOnlyEmitted(sts: seq<State>, steps: seq<Step>, env: Env, i: nat, j: nat, k: nat)
    requires IsRun(sts, steps, env) && i <= j < |sts| && k < |sts[i].queue| && sts[i].queue[k].name != ""
    ensures var c := sts[i].queue[k];
      || Pending(sts[j], c.serial, c.name)
      || exists a :: 0 <= a < |sts[j].log| && sts[j].log[a].Use? && sts[j].log[a].serial == c.serial
                     && (sts[j].log[a].args == "" || env.isObject(sts[j].log[a].args))
  {
    RunProgress(sts, steps, env, i, j);
    RunKeeps(sts, steps, env, false, j);
    var c := sts[i].queue[k];
    if !Pending(sts[j], c.serial, c.name) {
      var a :| 0 <= a < |sts[j].log| && sts[j].log[a].Use? && sts[j].log[a].serial == c.serial;
      assert GoodUse(sts[j], sts[j].log[a], env);
    }
  }

  lemma {:induction false} FlushOverwrites(st: State, env: Env)
    ensures Flush(st, env).st.overwritten == st.overwritten && Flush(st, env).st.next == st.next
    decreases |st.queue|
  {
    if st.queue != [] && st.queue[0].stopped && Finish(st.queue[0], env).Some? {
      FlushOverwrites(Pop(st, Finish(st.queue[0], env).value), env);
    }
  }

  lemma {:induction false} RecoverOverwrites(st: State, b: Boundary, env: Env)
    ensures Recover(st, b, env).0.overwritten == st.overwritten && Recover(st, b, env).0.next == st.next
    decreases |st.queue|
  {
    if st.queue != [] && Recoverable(st.queue[0], b, env) && Finish(st.queue[0], env).Some? {
      RecoverOverwrites(Pop(st, Finish(st.queue[0], env).value), b, env);
    }
  }

  lemma {:induction false} LocateOverwrites(st: State, ev: Event, env: Env)
    ensures Locate(st, ev, env).st.overwritten == st.overwritten
  {
    var q := st.queue;
    if q != [] {
      FlushOverwrites(Put(st, |q| - 1, q[|q| - 1].(stopped := true)), env);
    }
  }

  /** Without reuse of a content block, everything said about a call carries one identifier. */
  lemma {:induction false} OneIdentifierPerCall(sts: seq<State>, steps: seq<Step>, env: Env, i: nat, a: nat, b: nat)
    requires IsRun(sts, steps, env) && NoIndexReuse(sts, steps) && i < |sts| && a < |sts[i].log| && b < |sts[i].log|
    requires sts[i].log[a].serial == sts[i].log[b].serial
    ensures sts[i].log[a].id == sts[i].log[b].id
  {
    RunKeeps(sts, steps, env, true, i);
  }

  // ------------------------------------------------------- which calls are emitted

  predicate Present(st: State, serial: nat) {
    exists k :: 0 <= k < |st.queue| && st.queue[k].serial == serial
  }

  /** A call stays pending under its name, or it left and was emitted exactly if it had one. */
  ghost predicate StaysOrExits(t: State, serial: nat, name: string) {
    Pending(t, serial, name) || (!Present(t, serial) && (Emitted(t, serial) <==> name != ""))
  }

  /**
   * A step that renames no call: what had left stays as it was, and what leaves is emitted exactly if it has a
   * name.
   */
  ghost predicate Exits(s: State, t: State) {
    && s.next <= t.next
    && (forall serial: nat :: serial < s.next && !Present(s, serial) ==>
          !Present(t, serial) && (Emitted(t, serial) <==> Emitted(s, serial)))
    && (forall k :: 0 <= k < |s.queue| ==> s.queue[k].serial < s.next && StaysOrExits(t, s.queue[k].serial,
        s.queue[k].name))
  }

  lemma {:induction false} ExitsTrans(s: State, t: State, u: State)
    requires Exits(s, t) && Exits(t, u)
    ensures Exits(s, u)
  {
    forall k | 0 <= k < |s.queue| ensures StaysOrExits(u, s.queue[k].serial, s.queue[k].name) {
      var c := s.queue[k];
      assert StaysOrExits(t, c.serial, c.name);
      if Pending(t, c.serial, c.name) {
        var m :| 0 <= m < |t.queue| && t.queue[m].serial == c.serial && t.queue[m].name == c.name;
      }
    }
  }

  lemma {:induction false} SameEmitted(st: State, t: State, outs: seq<Out>, serial: nat)
    requires t.log == st.log + outs && forall i :: 0 <= i < |outs| ==> !(outs[i].Use? && outs[i].serial == serial)
    ensures Emitted(t, serial) <==> Emitted(st, serial)
  {
    if Emitted(st, serial) {
      StaysEmitted(st, t, serial);
    }
  }

  /** Steps on one pending call that keep its name. */
  lemma {:induction false} AdvancedExits(st: State, at: nat, c: Call, outs: seq<Out>, ow: set<nat>)
    requires Ordered(st) && at < |st.queue| && c.serial == st.queue[at].serial && c.name == st.queue[at].name
        && NoUse(outs)
    ensures Exits(st, Advanced(st, at, c, outs, ow))
  {
    var t := Advanced(st, at, c, outs, ow);
    forall k | 0 <= k < |st.queue| ensures Pending(t, st.queue[k].serial, st.queue[k].name) {
      assert t.queue[k].serial == st.queue[k].serial && t.queue[k].name == st.queue[k].name;
    }
    forall serial: nat | !Present(st, serial) ensures !Present(t, serial)
        && (Emitted(t, serial) <==> Emitted(st, serial)) {
      SameEmitted(st, t, outs, serial);
      assert forall k :: 0 <= k < |t.queue| ==> t.queue[k].serial == st.queue[k].serial;
    }
  }

  lemma {:induction false} PutExits(st: State, at: nat, c: Call)
    requires Ordered(st) && at < |st.queue| && c.serial == st.queue[at].serial && c.name == st.queue[at].name
    ensures Exits(st, Put(st, at, c))
  {
    assert st.log + [] == st.log;
    AdvancedExits(st, at, c, [], st.overwritten);
  }

  lemma {:induction false} IntroduceExits(st: State, id: string, name: string, index: string, generated: bool)
    requires Ordered(st)
    ensures Exits(st, Introduce(st, id, name, index, generated))
  {
    var t := Introduce(st, id, name, index, generated);
    forall k | 0 <= k < |st.queue| ensures Pending(t, st.queue[k].serial, st.queue[k].name) {
      assert t.queue[k] == st.queue[k];
    }
    forall serial: nat | serial < st.next && !Present(st, serial)
      ensures !Present(t, serial) && (Emitted(t, serial) <==> Emitted(st, serial))
    {
      assert forall k :: 0 <= k < |st.queue| ==> t.queue[k] == st.queue[k];
    }
  }

  lemma {:induction false} FinishOuts(c: Call, env: Env)
    requires Finish(c, env).Some?
    ensures var outs := Finish(c, env).value;
      && (forall i :: 0 <= i < |outs| && outs[i].Use? ==> outs[i].serial == c.serial && c.name != "")
      && (c.name != "" ==> outs != [] && outs[|outs| - 1].Use? && outs[|outs| - 1].serial == c.serial)
  {
  }

  lemma {:induction false} FinishExits(st: State, env: Env)
    requires Ordered(st) && st.queue != [] && Finish(st.queue[0], env).Some?
    ensures Exits(st, Pop(st, Finish(st.queue[0], env).value))
  {
    var c := st.queue[0];
    var outs := Finish(c, env).value;
    var t := Pop(st, outs);
    FinishOuts(c, env);
    forall k | 0 < k < |st.queue| ensures Pending(t, st.queue[k].serial, st.queue[k].name) {
      assert t.queue[k - 1] == st.queue[k];
    }
    assert forall k :: 0 <= k < |t.queue| ==> t.queue[k] == st.queue[k + 1];
    HeadExits(st, outs);
    forall serial: nat | !Present(st, serial) ensures !Present(t, serial)
        && (Emitted(t, serial) <==> Emitted(st, serial)) {
      SameEmitted(st, t, outs, serial);
    }
  }

  lemma {:induction false} HeadExits(st: State, outs: seq<Out>)
    requires Ordered(st) && st.queue != []
    requires forall i :: 0 <= i < |outs| && outs[i].Use? ==>
        outs[i].serial == st.queue[0].serial && st.queue[0].name != ""
    requires st.queue[0].name != "" ==>
        outs != [] && outs[|outs| - 1].Use? && outs[|outs| - 1].serial == st.queue[0].serial
    ensures !Present(Pop(st, outs), st.queue[0].serial)
    ensures Emitted(Pop(st, outs), st.queue[0].serial) <==> st.queue[0].name != ""
  {
    var t := Pop(st, outs);
    if st.queue[0].name != "" {
      assert t.log[|t.log| - 1] == outs[|outs| - 1];
    }
  }

  lemma {:induction false} ExitsReflexive(st: State)
    requires Ordered(st)
    ensures Exits(st, st)
  {
    forall k | 0 <= k < |st.queue| ensures Pending(st, st.queue[k].serial, st.queue[k].name) {
    }
  }

  lemma {:induction false} FlushExits(st: State, env: Env)
    requires Inv(st, env, false)
    ensures Exits(st, Flush(st, env).st)
    decreases |st.queue|
  {
    if st.queue == [] || !st.queue[0].stopped || Finish(st.queue[0], env).None? {
      ExitsReflexive(st);
    } else {
      var t := Pop(st, Finish(st.queue[0], env).value);
      FinishKeeps(st, env, false);
      FinishExits(st, env);
      FlushExits(t, env);
      ExitsTrans(st, t, Flush(t, env).st);
    }
  }

  lemma {:induction false} RecoverExits(st: State, b: Boundary, env: Env)
    requires Inv(st, env, false)
    ensures Exits(st, Recover(st, b, env).0)
    decreases |st.queue|
  {
    if st.queue == [] || !Recoverable(st.queue[0], b, env) || Finish(st.queue[0], env).None? {
      ExitsReflexive(st);
    } else {
      var t := Pop(st, Finish(st.queue[0], env).value);
      FinishKeeps(st, env, false);
      FinishExits(st, env);
      RecoverExits(t, b, env);
      ExitsTrans(st, t, Recover(t, b, env).0);
    }
  }

  lemma {:induction false} StopLastExits(st: State, at: nat, env: Env)
    requires Inv(st, env, false) && at < |st.queue|
    ensures Exits(st, Flush(Put(st, at, st.queue[at].(stopped := true)), env).st)
  {
    var s := Put(st, at, st.queue[at].(stopped := true));
    PutExits(st, at, st.queue[at].(stopped := true));
    PutKeeps(st, env, at, st.queue[at].(stopped := true), false);
    FlushExits(s, env);
    ExitsTrans(st, s, Flush(s, env).st);
  }

  lemma {:induction false} LocateExits(st: State, ev: Event, env: Env)
    requires Inv(st, env, false)
    ensures Exits(st, Locate(st, ev, env).st)
  {
    var q := st.queue;
    ExitsReflexive(st);
    if ev.id != "" {
      var byIndex := if ev.index == "" then None else ByIndex(q, ev.index);
      IntroduceExits(st, ev.id, ev.name, ev.index, false);
      if byIndex.Some? {
        PutExits(st, byIndex.value, q[byIndex.value].(id := ev.id, generated := false));
      }
      if q != [] {
        PutExits(st, |q| - 1, q[|q| - 1].(id := ev.id, generated := false));
      }
    } else if ev.index != "" {
      IntroduceExits(st, ev.spare, ev.name, ev.index, true);
    } else {
      IntroduceExits(st, ev.spare, ev.name, "", true);
      if q != [] && ev.name != "" && q[|q| - 1].name != ev.name {
        LocateLatestExits(st, ev, env);
      }
    }
  }

  lemma {:induction false} LocateLatestExits(st: State, ev: Event, env: Env)
    requires Inv(st, env, false) && st.queue != []
    ensures var s := Flush(Put(st, |st.queue| - 1, st.queue[|st.queue| - 1].(stopped := true)), env).st;
      Exits(st, s) && Exits(st, Introduce(s, ev.spare, ev.name, "", true))
  {
    var at := |st.queue| - 1;
    var s := Flush(Put(st, at, st.queue[at].(stopped := true)), env).st;
    StopLastExits(st, at, env);
    StopKeeps(st, at, env, false);
    IntroduceExits(s, ev.spare, ev.name, "", true);
    ExitsTrans(st, s, Introduce(s, ev.spare, ev.name, "", true));
  }

  lemma {:induction false} FeedExits(st: State, at: nat, input: Input)
    requires Ordered(st) && at < |st.queue|
    ensures Exits(st, Feed(st, at, input))
  {
    var c, outs, ow := FeedIsAdvance(st, at, input, false);
    FeedKeepsName(st, at, input);
    AdvancedExits(st, at, c, outs, ow);
  }

  lemma {:induction false} FeedKeepsName(st: State, at: nat, input: Input)
    requires at < |st.queue|
    ensures Feed(st, at, input).queue[at].name == st.queue[at].name
  {
  }

  lemma {:induction false} OpenedExits(st: State, at: nat)
    requires Ordered(st) && at < |st.queue|
    ensures Exits(st, Opened(st, at))
  {
    ExitsReflexive(st);
    var c := st.queue[at];
    if !c.started {
      OpeningSpells(c);
      AdvancedExits(st, at, c.(started := true), Opening(c), st.overwritten);
    }
  }

  /** What a located call goes through once it is labelled. */
  lemma {:induction false} LabelledExits(st: State, at: nat, ev: Event, env: Env)
    requires Inv(st, env, false) && at < |st.queue| && (st.queue[at].name != "" || ev.name != "" || !ev.stop)
    ensures Exits(Put(st, at, Labelled(st.queue[at], ev)), Absorb(st, at, ev, env).st)
  {
    var s1 := Put(st, at, Labelled(st.queue[at], ev));
    PutKeeps(st, env, at, Labelled(st.queue[at], ev), false);
    var s2 := Opened(s1, at);
    OpenedKeeps(s1, env, at, false);
    OpenedExits(s1, at);
    var s3 := Feed(s2, at, ev.input);
    FeedKeeps(s2, env, at, ev.input, false);
    FeedExits(s2, at, ev.input);
    ExitsTrans(s1, s2, s3);
    if ev.stop {
      StopLastExits(s3, at, env);
      ExitsTrans(s1, s3, Flush(Put(s3, at, s3.queue[at].(stopped := true)), env).st);
    }
  }

  function NameOf(q: seq<Call>, serial: nat): string {
    if q == [] then "" else if q[0].serial == serial then q[0].name else NameOf(q[1..], serial)
  }

  lemma {:induction false} NameAt(q: seq<Call>, k: nat)
    requires k < |q| && forall i, j :: 0 <= i < j < |q| ==> q[i].serial < q[j].serial
    ensures NameOf(q, q[k].serial) == q[k].name
  {
    if k > 0 {
      NameAt(q[1..], k - 1);
    }
  }

  /** The name a call has when a step finishes it: the event's own label counts for the call it belongs to. */
  function NameAtExit(st: State, step: Step, env: Env, serial: nat): string {
    if step.OnRecovery? then NameOf(st.queue, serial) else
      var l := Locate(st, step.event, env);
      if l.Found? && l.st.queue[l.at].serial == serial then Labelled(l.st.queue[l.at], step.event).name
      else NameOf(st.queue, serial)
  }

  /** The call was pending or introduced in a step, and is not pending after it. */
  predicate LeftIn(s: State, t: State, serial: nat) {
    (Present(s, serial) || s.next <= serial < t.next) && !Present(t, serial)
  }

  lemma {:induction false} ExitNamed(s: State, t: State, serial: nat)
    requires Ordered(s) && Exits(s, t) && Present(s, serial) && !Present(t, serial)
    ensures Emitted(t, serial) <==> NameOf(s.queue, serial) != ""
  {
    var k :| 0 <= k < |s.queue| && s.queue[k].serial == serial;
    NameAt(s.queue, k);
    assert StaysOrExits(t, s.queue[k].serial, s.queue[k].name);
  }

  lemma {:induction false} KeptName(s: State, t: State, serial: nat)
    requires Ordered(s) && Ordered(t) && Exits(s, t) && Present(s, serial) && Present(t, serial)
    ensures NameOf(t.queue, serial) == NameOf(s.queue, serial)
  {
    var k :| 0 <= k < |s.queue| && s.queue[k].serial == serial;
    NameAt(s.queue, k);
    assert StaysOrExits(t, s.queue[k].serial, s.queue[k].name);
    var m :| 0 <= m < |t.queue| && t.queue[m].serial == serial && t.queue[m].name == s.queue[k].name;
    NameAt(t.queue, m);
  }

  /** Only the located call can be new. */
  lemma {:induction false} LocateIntroduces(st: State, ev: Event, env: Env)
    ensures var l := Locate(st, ev, env);
      l.st.next == st.next || (l.Found? && l.st.next == st.next + 1 && l.st.queue[l.at].serial == st.next)
  {
    var q := st.queue;
    if q != [] {
      FlushOverwrites(Put(st, |q| - 1, q[|q| - 1].(stopped := true)), env);
    }
  }

  lemma {:induction false} AbsorbIntroducesNone(st: State, at: nat, ev: Event, env: Env)
    requires at < |st.queue|
    ensures Absorb(st, at, ev, env).st.next == st.next
  {
    var fed := Feed(Opened(Put(st, at, Labelled(st.queue[at], ev)), at), at, ev.input);
    FlushOverwrites(Put(fed, at, fed.queue[at].(stopped := true)), env);
  }

  lemma {:induction false} RelabelKeeps(st: State, at: nat, c: Call, serial: nat)
    requires Ordered(st) && at < |st.queue| && c.serial == st.queue[at].serial
    ensures Present(Put(st, at, c), serial) <==> Present(st, serial)
    ensures Emitted(Put(st, at, c), serial) <==> Emitted(st, serial)
    ensures Present(st, serial) ==>
      NameOf(Put(st, at, c).queue, serial) == if serial == c.serial then c.name else NameOf(st.queue, serial)
  {
    var t := Put(st, at, c);
    assert forall k :: 0 <= k < |st.queue| ==> t.queue[k].serial == st.queue[k].serial;
    if Present(st, serial) {
      var k :| 0 <= k < |st.queue| && st.queue[k].serial == serial;
      NameAt(st.queue, k);
      NameAt(t.queue, k);
    }
  }

  lemma {:induction false} AbsorbedExit(st: State, at: nat, ev: Event, env: Env, serial: nat)
    requires Inv(st, env, false) && at < |st.queue| && serial < st.next
    ensures var t := Absorb(st, at, ev, env).st;
      var name := if st.queue[at].serial == serial then Labelled(st.queue[at], ev).name else NameOf(st.queue, serial);
      && (Present(st, serial) && !Present(t, serial) ==> (Emitted(t, serial) <==> name != ""))
      && (!Present(st, serial) ==> !Present(t, serial) && (Emitted(t, serial) <==> Emitted(st, serial)))
  {
    var c := Labelled(st.queue[at], ev);
    if st.queue[at].name != "" || ev.name != "" || !ev.stop {
      var r := Put(st, at, c);
      RelabelKeeps(st, at, c, serial);
      PutKeeps(st, env, at, c, false);
      LabelledExits(st, at, ev, env);
      var t := Absorb(st, at, ev, env).st;
      if Present(st, serial) && !Present(t, serial) {
        ExitNamed(r, t, serial);
      }
    }
  }

  lemma {:induction false} HandleExit(st: State, ev: Event, env: Env, serial: nat)
    requires Inv(st, env, false)
    ensures var t := Handle(st, ev, env).st;
      && (LeftIn(st, t, serial) ==> (Emitted(t, serial) <==> NameAtExit(st, OnEvent(ev), env, serial) != ""))
      && (serial < st.next && !Present(st, serial) ==> !Present(t, serial) && (Emitted(t, serial) <==>
          Emitted(st, serial)))
  {
    var l := Locate(st, ev, env);
    LocateKeeps(st, ev, env, false);
    LocateExits(st, ev, env);
    LocateIntroduces(st, ev, env);
    var t := Handle(st, ev, env).st;
    if l.Found? {
      AbsorbIntroducesNone(l.st, l.at, ev, env);
      if serial < l.st.next {
        AbsorbedExit(l.st, l.at, ev, env, serial);
        LocatedExit(st, l.st, l.at, serial);
      }
    } else if Present(st, serial) && !Present(t, serial) {
      ExitNamed(st, t, serial);
    }
  }

  /** A call other than the located one keeps its name while the event is located, or has left by then. */
  lemma {:induction false} LocatedExit(st: State, s: State, at: nat, serial: nat)
    requires Ordered(st) && Ordered(s) && Exits(st, s) && at < |s.queue|
    ensures Present(st, serial) && Present(s, serial) ==> NameOf(s.queue, serial) == NameOf(st.queue, serial)
    ensures Present(st, serial) && !Present(s, serial) ==> (Emitted(s, serial) <==> NameOf(st.queue, serial) != "")
    ensures !Present(s, serial) ==> s.queue[at].serial != serial
  {
    if Present(st, serial) {
      if Present(s, serial) {
        KeptName(st, s, serial);
      } else {
        ExitNamed(st, s, serial);
      }
    }
  }

  lemma {:induction false} StepExit(st: State, step: Step, env: Env, serial: nat)
    requires Inv(st, env, false)
    ensures var t := Apply(st, step, env);
      && (LeftIn(st, t, serial) ==> (Emitted(t, serial) <==> NameAtExit(st, step, env, serial) != ""))
      && (serial < st.next && !Present(st, serial) ==> !Present(t, serial) && (Emitted(t, serial) <==>
          Emitted(st, serial)))
  {
    match step
    case OnEvent(ev) => HandleExit(st, ev, env, serial);
    case OnRecovery(b) =>
      RecoverExits(st, b, env);
      RecoverOverwrites(st, b, env);
      var t := Recover(st, b, env).0;
      if Present(st, serial) && !Present(t, serial) {
        ExitNamed(st, t, serial);
      }
  }

  /** Nothing happens any more to a call that left. */
  ghost predicate StaysAbsent(s: State, t: State, serial: nat) {
    s.next <= t.next
    && (serial < s.next && !Present(s, serial) ==> !Present(t, serial) && (Emitted(t, serial) <==> Emitted(s, serial)))
  }

  lemma {:induction false} AbsentForGood(sts: seq<State>, i: nat, j: nat, serial: nat)
    requires i <= j < |sts| && serial < sts[i].next && !Present(sts[i], serial)
    requires forall n :: i <= n < j ==> StaysAbsent(sts[n], sts[n + 1], serial)
    ensures serial < sts[j].next && !Present(sts[j], serial) && (Emitted(sts[j], serial) <==> Emitted(sts[i], serial))
  {
    if i < j {
      AbsentForGood(sts, i, j - 1, serial);
      assert StaysAbsent(sts[j - 1], sts[j], serial);
    }
  }

  lemma {:induction false} RunStepExit(sts: seq<State>, steps: seq<Step>, env: Env, n: nat, serial: nat)
    requires IsRun(sts, steps, env) && n < |steps|
    ensures StaysAbsent(sts[n], sts[n + 1], serial)
    ensures LeftIn(sts[n], sts[n + 1], serial) ==>
      serial < sts[n + 1].next && (Emitted(sts[n + 1], serial) <==> NameAtExit(sts[n], steps[n], env, serial) != "")
  {
    RunKeeps(sts, steps, env, false, n);
    ApplyKeeps(sts[n], steps[n], env, false);
    StepExit(sts[n], steps[n], env, serial);
  }

  /**
   * A call that left the queue was emitted, then and for the rest of the run, exactly if it had a name
   * when it left; so an introduced call is lost exactly if it leaves without one.
   */
  lemma {:induction false} LeftEmittedIffNamed(sts: seq<State>, steps: seq<Step>, env: Env, i: nat, j: nat, serial: nat)
    requires IsRun(sts, steps, env) && i < j < |sts| && LeftIn(sts[i], sts[i + 1], serial)
    ensures !Present(sts[j], serial)
    ensures Emitted(sts[j], serial) <==> NameAtExit(sts[i], steps[i], env, serial) != ""
  {
    RunStepExit(sts, steps, env, i, serial);
    forall n | i + 1 <= n < j ensures StaysAbsent(sts[n], sts[n + 1], serial) {
      RunStepExit(sts, steps, env, n, serial);
    }
    AbsentForGood(sts, i + 1, j, serial);
  }

  // ------------------------------------------------------ which deltas are replaced

  /** The event carries a whole value for a call that has streamed something and is open to the client. */
  predicate Replaces(st: State, ev: Event, env: Env, serial: nat) {
    var l := Locate(st, ev, env);
    && ev.input.Whole? && l.Found?
    && var c := Labelled(l.st.queue[l.at], ev);
       && c.serial == serial && c.buffer != ""
       && (c.started || (!c.generated && c.name != ""))
       && (c.name != "" || !ev.stop)
  }

  lemma {:induction false} FedOverwrites(st: State, at: nat, ev: Event)
    requires at < |st.queue|
    ensures var c := Labelled(st.queue[at], ev);
      Feed(Opened(Put(st, at, c), at), at, ev.input).overwritten
      == st.overwritten + if ev.input.Whole? && c.buffer != "" && (c.started || (!c.generated && c.name != ""))
          then {c.serial} else {}
  {
  }

  lemma {:induction false} HandleOverwrites(st: State, ev: Event, env: Env, serial: nat)
    ensures serial in Handle(st, ev, env).st.overwritten <==> serial in st.overwritten || Replaces(st, ev, env, serial)
  {
    var l := Locate(st, ev, env);
    LocateOverwrites(st, ev, env);
    if l.Found? {
      var fed := Feed(Opened(Put(l.st, l.at, Labelled(l.st.queue[l.at], ev)), l.at), l.at, ev.input);
      FedOverwrites(l.st, l.at, ev);
      FlushOverwrites(Put(fed, l.at, fed.queue[l.at].(stopped := true)), env);
    }
  }

  lemma {:induction false} OverwrittenIffReplaced(sts: seq<State>, steps: seq<Step>, env: Env, i: nat, serial: nat)
    requires IsRun(sts, steps, env) && i < |sts|
    ensures serial in sts[i].overwritten
       <==> exists j :: 0 <= j < i && steps[j].OnEvent? && Replaces(sts[j], steps[j].event, env, serial)
  {
    if i > 0 {
      OverwrittenIffReplaced(sts, steps, env, i - 1, serial);
      match steps[i - 1] {
        case OnRecovery(b) => RecoverOverwrites(sts[i - 1], b, env);
        case OnEvent(ev) => HandleOverwrites(sts[i - 1], ev, env, serial);
      }
    }
  }

  /**
   * The deltas sent for an emitted call concatenate to its arguments exactly when no event carried a whole
   * value for it after something had been streamed; with string fragments only, they always do.
   */
  lemma {:induction false} DeltasSpellArguments(sts: seq<State>, steps: seq<Step>, env: Env, i: nat, a: nat)
    requires IsRun(sts, steps, env) && i < |sts| && a < |sts[i].log| && sts[i].log[a].Use?
    ensures var use := sts[i].log[a];
      Deltas(sts[i].log, use.serial) == use.args
      <==> !exists j :: 0 <= j < i && steps[j].OnEvent? && Replaces(sts[j], steps[j].event, env, use.serial)
    ensures StringsOnly(steps) ==> Deltas(sts[i].log, sts[i].log[a].serial) == sts[i].log[a].args
  {
    RunKeeps(sts, steps, env, false, i);
    assert GoodUse(sts[i], sts[i].log[a], env);
    OverwrittenIffReplaced(sts, steps, env, i, sts[i].log[a].serial);
  }

  /** It does happen: a whole value after a streamed fragment leaves the client with more than the arguments. */
  lemma {:induction false} ReplacedDeltasDiffer(env: Env) returns (sts: seq<State>, steps: seq<Step>)
    requires env.isObject("{}")
    ensures IsRun(sts, steps, env) && |steps| == 2 && |sts[2].log| == 5 && sts[2].log[4].Use?
    ensures Deltas(sts[2].log, 0) != sts[2].log[4].args && sts[2].log[4].serial == 0
  {
    var first := Event("a", "n", "", false, Text("{"), "x");
    var second := Event("a", "", "", true, Whole("{}"), "y");
    var opening := Call(0, "a", "n", "", "", false, false, false);
    var s0 := State([opening], 1, [], {});
    assert [] + [opening] == [opening];
    assert Locate(INITIAL, first, env) == Found(s0, 0);
    var begun := State([opening.(started := true)], 1, [Start(0, "a", "n")], {});
    assert Opened(s0, 0) == begun;
    var s1 := State([opening.(started := true, buffer := "{")], 1, [Start(0, "a", "n"), Delta(0, "a", "{")], {});
    assert "" + "{" == "{" && |"{"| == 1;
    assert begun.log + [Delta(0, "a", "{")] == s1.log;
    assert Feed(begun, 0, Text("{")) == s1;
    assert Put(s0, 0, Labelled(opening, first)) == s0;
    assert Handle(INITIAL, first, env) == Done(s1);
    var c2 := Call(0, "a", "n", "", "{}", false, true, false);
    var fed := State([c2], 1, s1.log + [Delta(0, "a", "{}")], {0});
    assert Locate(s1, second, env) == Found(s1, 0);
    assert Put(s1, 0, Labelled(s1.queue[0], second)) == s1;
    assert Opened(s1, 0) == s1;
    assert Feed(s1, 0, Whole("{}")) == fed;
    var stopped := State([c2.(stopped := true)], 1, fed.log, {0});
    var s2 := State([], 1, fed.log + [Stop(0, "a"), Use(0, "a", "n", "{}")], {0});
    assert Opening(stopped.queue[0]) + Closing(stopped.queue[0]) == Closing(stopped.queue[0]);
    assert |"n"| == 1 && Finish(stopped.queue[0], env) == Some(Closing(stopped.queue[0]));
    assert Pop(stopped, [Stop(0, "a"), Use(0, "a", "n", "{}")]) == s2;
    assert Flush(s2, env) == Done(s2);
    assert Flush(stopped, env) == Done(s2);
    assert Put(fed, 0, fed.queue[0].(stopped := true)) == stopped;
    assert Handle(s1, second, env) == Done(s2);
    sts := [INITIAL, s1, s2];
    steps := [OnEvent(first), OnEvent(second)];
    RunKeeps(sts, steps, env, false, 2);
    assert GoodUse(sts[2], sts[2].log[4], env);
  }

  /** Not every introduced call is emitted: one that never got a name can vanish without an error. */
  lemma {:induction false} UnnamedCallVanishes(env: Env) returns (sts: seq<State>, steps: seq<Step>)
    ensures IsRun(sts, steps, env) && |steps| == 2 && steps[0].OnEvent? && steps[1].OnEvent?
    ensures sts[1].queue != [] && sts[1].queue[0].serial == 0
    ensures Handle(sts[0], steps[0].event, env).Done? && Handle(sts[1], steps[1].event, env).Done?
    ensures !Emitted(sts[2], 0) && forall k :: 0 <= k < |sts[2].queue| ==> sts[2].queue[k].serial != 0
  {
    var first := Event("a", "", "", false, NoInput, "x");
    var second := Event("", "n", "", false, NoInput, "y");
    var unnamed := Call(0, "a", "", "", "", false, false, false);
    var s1 := State([unnamed], 1, [], {});
    assert [] + [unnamed] == [unnamed];
    assert Locate(INITIAL, first, env) == Found(s1, 0);
    assert Absorb(s1, 0, first, env) == Done(s1);
    assert Handle(INITIAL, first, env) == Done(s1);
    var stopped := State([unnamed.(stopped := true)], 1, [], {});
    var flushed := State([], 1, [], {});
    assert Pop(stopped, []) == flushed;
    assert Flush(stopped, env) == Done(flushed);
    assert Put(s1, 0, unnamed.(stopped := true)) == stopped;
    var named := Call(1, "y", "n", "", "", true, false, false);
    var s2 := State([named], 2, [], {});
    assert [] + [named] == [named];
    assert Locate(s1, second, env) == Found(s2, 0);
    assert Absorb(s2, 0, second, env) == Done(s2);
    sts := [INITIAL, s1, s2];
    steps := [OnEvent(first), OnEvent(second)];
  }

  /** After a stop that conflicts with tool use, recovery emits arguments only of calls that were closed. */
  lemma {:induction false} ConflictingStopRecoversOnlyClosed(st: State, b: Boundary, env: Env, i: nat)
    requires !Allows(b) && |st.log| <= i < |Recover(st, b, env).0.log|
    requires var o := Recover(st, b, env).0.log[i]; o.Use? && o.args != ""
    ensures var o := Recover(st, b, env).0.log[i];
      exists k :: 0 <= k < |st.queue| && st.queue[k].serial == o.serial && st.queue[k].stopped
          && st.queue[k].buffer == o.args
    decreases |st.queue|
  {
    var c := st.queue[0];
    var outs := Finish(c, env).value;
    var t := Pop(st, outs);
    if i < |t.log| {
      RecoverExtends(t, b, env);
      assert Recover(st, b, env).0.log[i] == outs[i - |st.log|];
      assert !outs[i - |st.log|].Use? || outs[i - |st.log|] == Use(c.serial, c.id, c.name, c.buffer);
    } else {
      ConflictingStopRecoversOnlyClosed(t, b, env, i);
      var o := Recover(t, b, env).0.log[i];
      var k :| 0 <= k < |t.queue| && t.queue[k].serial == o.serial && t.queue[k].stopped && t.queue[k].buffer == o.args;
      assert st.queue[k + 1] == t.queue[k];
    }
  }

  lemma {:induction false} RecoverExtends(st: State, b: Boundary, env: Env)
    ensures st.log <= Recover(st, b, env).0.log
    decreases |st.queue|
  {
    if st.queue != [] && Recoverable(st.queue[0], b, env) && Finish(st.queue[0], env).Some? {
      RecoverExtends(Pop(st, Finish(st.queue[0], env).value), b, env);
    }
  }

  // --------------------------------------------------------------- pending set

  /** Every pending call is filed under its own identifier and listed exactly once. */
  predicate Keyed(byID: map<string, Call>, order: seq<string>)
    decreases |order|
  {
    if order == [] then byID == map[] else
      && order[0] in byID && order[0] != "" && byID[order[0]].id == order[0]
      && Keyed(byID - {order[0]}, order[1..])
  }

  /** The pending calls in order of introduction. */
  function Queue(byID: map<string, Call>, order: seq<string>): (q: seq<Call>)
    requires Keyed(byID, order)
    ensures |q| == |order|
    decreases |order|
  {
    if order == [] then [] else [byID[order[0]]] + Queue(byID - {order[0]}, order[1..])
  }

  lemma {:induction false} QueueAt(byID: map<string, Call>, order: seq<string>, i: nat)
    requires Keyed(byID, order) && i < |order|
    ensures order[i] in byID && order[i] != "" && byID[order[i]].id == order[i]
    ensures Queue(byID, order)[i] == byID[order[i]]
    ensures i > 0 ==> order[i] != order[0]
    decreases |order|
  {
    if i > 0 {
      QueueAt(byID - {order[0]}, order[1..], i - 1);
    }
  }

  lemma {:induction false} OrderDistinct(byID: map<string, Call>, order: seq<string>, i: nat, j: nat)
    requires Keyed(byID, order) && i < j < |order|
    ensures order[i] != order[j]
    decreases |order|
  {
    if i == 0 {
      QueueAt(byID, order, j);
    } else {
      OrderDistinct(byID - {order[0]}, order[1..], i - 1, j - 1);
    }
  }

  lemma {:induction false} Listed(byID: map<string, Call>, order: seq<string>, id: string) returns (i: nat)
    requires Keyed(byID, order) && id in byID
    ensures i < |order| && order[i] == id
    decreases |order|
  {
    if order[0] == id {
      i := 0;
    } else {
      var j := Listed(byID - {order[0]}, order[1..], id);
      i := j + 1;
    }
  }

  lemma {:induction false} QueueById(byID: map<string, Call>, order: seq<string>, id: string)
    requires Keyed(byID, order)
    ensures ById(Queue(byID, order), id).Some? <==> id in byID
  {
    var q := Queue(byID, order);
    if id in byID {
      var i := Listed(byID, order, id);
      QueueAt(byID, order, i);
    } else {
      var at := ById(q, id);
      if at.Some? {
        QueueAt(byID, order, at.value);
      }
    }
  }

  lemma {:induction false} QueueUpdate(byID: map<string, Call>, order: seq<string>, at: nat, c: Call)
    requires Keyed(byID, order) && at < |order| && c.id == order[at]
    ensures Keyed(byID[c.id := c], order)
    ensures Queue(byID[c.id := c], order) == Queue(byID, order)[at := c]
    decreases |order|
  {
    if at == 0 {
      assert byID[c.id := c] - {order[0]} == byID - {order[0]};
    } else {
      QueueAt(byID, order, at);
      QueueUpdate(byID - {order[0]}, order[1..], at - 1, c);
      assert byID[c.id := c] - {order[0]} == (byID - {order[0]})[c.id := c];
    }
  }

  lemma {:induction false} QueueRekey(byID: map<string, Call>, order: seq<string>, at: nat, c: Call)
    requires Keyed(byID, order) && at < |order| && c.id !in byID && c.id != ""
    ensures var m := (byID - {order[at]})[c.id := c];
      Keyed(m, order[at := c.id]) && Queue(m, order[at := c.id]) == Queue(byID, order)[at := c]
    decreases |order|
  {
    var m := (byID - {order[at]})[c.id := c];
    var o := order[at := c.id];
    if at == 0 {
      assert m - {c.id} == byID - {order[0]};
      assert o[1..] == order[1..];
    } else {
      QueueAt(byID, order, at);
      var rest := byID - {order[0]};
      QueueRekey(rest, order[1..], at - 1, c);
      assert o[1..] == order[1..][at - 1 := c.id];
      assert m - {order[0]} == (rest - {order[at]})[c.id := c];
    }
  }

  lemma {:induction false} LastOfTail(byID: map<string, Call>, order: seq<string>)
    requires Keyed(byID, order) && order != []
    ensures order[|order| - 1] == order[0] <==> order[1..] == []
    ensures order[1..] != [] ==> order[1..][|order[1..]| - 1] == order[|order| - 1]
  {
    if |order| > 1 {
      QueueAt(byID, order, |order| - 1);
    }
  }

  lemma {:induction false} QueueAppend(byID: map<string, Call>, order: seq<string>, c: Call)
    requires Keyed(byID, order) && c.id !in byID && c.id != ""
    ensures Keyed(byID[c.id := c], order + [c.id]) && Queue(byID[c.id := c], order + [c.id]) == Queue(byID, order) + [c]
    decreases |order|
  {
    var m, o := byID[c.id := c], order + [c.id];
    if order == [] {
      assert m - {c.id} == map[] && o[1..] == [];
    } else {
      QueueAppend(byID - {order[0]}, order[1..], c);
      assert o[1..] == order[1..] + [c.id];
      assert m - {order[0]} == (byID - {order[0]})[c.id := c];
    }
  }

  lemma {:induction false} RecoverUnfolds(st: State, b: Boundary, env: Env)
    requires st.queue != []
    ensures if !Recoverable(st.queue[0], b, env) || Finish(st.queue[0], env).None? then Recover(st, b, env) == (st, 0)
            else var r := Recover(Pop(st, Finish(st.queue[0], env).value), b, env);
                 Recover(st, b, env) == (r.0, r.1 + 1)
  {
  }

  class PendingToolUseSet {
    var byID: map<string, Call>
    var order: seq<string>
    var lastID: string
    var next: nat
    /** The client callbacks, in the order in which they are called. */
    var log: seq<Out>
    ghost var overwritten: set<nat>

    /** The last identifier is always that of the youngest pending call. */
    ghost predicate Valid() reads this {
      Keyed(byID, order) && lastID == if order == [] then "" else order[|order| - 1]
    }

    ghost function View(): State
      requires Valid()
      reads this
    {
      State(Queue(byID, order), next, log, overwritten)
    }

    constructor ()
      ensures Valid() && View() == INITIAL
    {
      byID, order, lastID, next, log, overwritten := map[], [], "", 0, [], {};
    }

    method GetByContentBlockIndex(index: string) returns (at: Option<nat>)
      requires Valid()
      ensures at == ByIndex(View().queue, index)
    {
      var i := 0;
      while i < |order|
        invariant 0 <= i <= |order|
        invariant ByIndex(View().queue, index) == ByIndex(View().queue, index, i)
      {
        QueueAt(byID, order, i);
        if byID[order[i]].index == index {
          return Some(i);
        }
        i := i + 1;
      }
      at := None;
    }

    /** The state of a pending call. */
    method Load(at: nat) returns (c: Call)
      requires Valid() && at < |order|
      ensures c == View().queue[at] && c.id == order[at] && order[at] in byID
    {
      QueueAt(byID, order, at);
      c := byID[order[at]];
    }

    /** The youngest pending call. */
    method Latest() returns (c: Option<Call>)
      requires Valid()
      ensures c == if View().queue == [] then None else Some(View().queue[|View().queue| - 1])
      ensures c.Some? ==> c.value.id == order[|order| - 1]
    {
      if order == [] {
        return None;
      }
      QueueAt(byID, order, |order| - 1);
      c := Some(byID[lastID]);
    }

    method Add(id: string, name: string, index: string, generated: bool)
      requires Valid() && id != "" && id !in byID
      modifies this
      ensures Valid() && View() == Introduce(old(View()), id, name, index, generated)
    {
      var c := Call(next, id, name, index, "", generated, false, false);
      QueueAppend(byID, order, c);
      byID := byID[id := c];
      order := order + [id];
      lastID := id;
      next := next + 1;
    }

    /** Replaces the state of a pending call. */
    method Store(ghost at: nat, c: Call)
      requires Valid() && at < |order| && c.id == order[at]
      modifies this`byID
      ensures Valid() && View() == Put(old(View()), at, c) && byID.Keys == old(byID).Keys
    {
      QueueAt(byID, order, at);
      QueueUpdate(byID, order, at, c);
      byID := byID[c.id := c];
    }

    method Rekey(at: nat, newID: string)
      requires Valid() && at < |order| && newID != "" && newID !in byID
      modifies this
      ensures Valid() && View() == Rekeyed(old(View()), at, newID)
      ensures order == old(order)[at := newID]
    {
      var oldID := order[at];
      var current := Load(at);
      var c := current.(id := newID, generated := false);
      QueueRekey(byID, order, at, c);
      byID := (byID - {oldID})[newID := c];
      var i := 0;
      while order[i] != oldID
        invariant 0 <= i <= at && order == old(order)
        decreases at - i
      {
        i := i + 1;
      }
      if i < at {
        OrderDistinct(old(byID), order, i, at);
      }
      if at < |order| - 1 {
        OrderDistinct(old(byID), order, at, |order| - 1);
      }
      order := order[i := newID];
      if lastID == oldID {
        lastID := newID;
      }
    }

    method RemoveFirst()
      requires Valid() && order != []
      modifies this`byID, this`order, this`lastID
      ensures Valid() && View() == old(View()).(queue := old(View()).queue[1..])
      ensures |order| == |old(order)| - 1 && byID.Keys <= old(byID).Keys
    {
      var id := order[0];
      LastOfTail(byID, order);
      byID := byID - {id};
      order := order[1..];
      // The head is the last identifier only when it was alone, so nothing is left to fall back to.
      if lastID == id {
        lastID := "";
      }
    }

    method StartToolUseStream(at: nat)
      requires Valid() && at < |order|
      modifies this`byID, this`log
      ensures Valid() && View() == Begin(old(View()), at) && byID.Keys == old(byID).Keys
    {
      var c := Load(at);
      if !c.started {
        log := log + [Start(c.serial, c.id, c.name)];
        if c.buffer != "" {
          log := log + [Delta(c.serial, c.id, c.buffer)];
        }
      }
      assert log == old(log) + Opening(c);
      Store(at, c.(started := true));
    }

    /** Reports the head to the client unless its arguments are malformed. */
    method FinishFirst(env: Env) returns (ok: bool)
      requires Valid() && order != []
      modifies this`byID, this`log
      ensures Valid() && ok == Finish(old(View()).queue[0], env).Some? && byID.Keys == old(byID).Keys
      ensures !ok ==> View() == old(View())
      ensures ok ==> View().queue[1..] == old(View()).queue[1..]
      ensures ok ==> log == old(log) + Finish(old(View()).queue[0], env).value
    {
      var c := Load(0);
      if c.name == "" {
        return true;
      }
      if c.buffer != "" && !env.isObject(c.buffer) {
        return false;
      }
      StartToolUseStream(0);
      log := log + [Stop(c.serial, c.id)];
      log := log + [Use(c.serial, c.id, c.name, c.buffer)];
      ok := true;
    }

    /** Finishes the head and takes it off the queue. */
    method TakeFirst(env: Env) returns (ok: bool)
      requires Valid() && order != []
      modifies this`byID, this`order, this`lastID, this`log
      ensures Valid() && ok == Finish(old(View()).queue[0], env).Some?
      ensures !ok ==> View() == old(View())
      ensures ok ==> View() == Pop(old(View()), Finish(old(View()).queue[0], env).value) && |order| == |old(order)| - 1
      ensures byID.Keys <= old(byID).Keys
    {
      ok := FinishFirst(env);
      if ok {
        RemoveFirst();
      }
    }

    method FlushStoppedPrefix(env: Env) returns (ok: bool)
      requires Valid()
      modifies this`byID, this`order, this`lastID, this`log
      ensures Valid() && (if ok then Done(View()) else Failed(View())) == Flush(old(View()), env)
      ensures byID.Keys <= old(byID).Keys
    {
      while order != []
        invariant Valid() && Flush(View(), env) == Flush(old(View()), env)
        invariant byID.Keys <= old(byID).Keys
        decreases |order|
      {
        var c := Load(0);
        if !c.stopped {
          break;
        }
        ok := TakeFirst(env);
        if !ok {
          return;
        }
      }
      ok := true;
    }

    method RecoverCompletePrefix(b: Boundary, env: Env) returns (recovered: nat)
      requires Valid()
      modifies this`byID, this`order, this`lastID, this`log
      ensures Valid() && View() == Recover(old(View()), b, env).0 && recovered == Recover(old(View()), b, env).1
    {
      recovered := 0;
      ghost var end, count := Recover(View(), b, env).0, Recover(View(), b, env).1;
      while order != []
        invariant Valid() && end == Recover(View(), b, env).0 && count == recovered + Recover(View(), b, env).1
        decreases |order|
      {
        RecoverUnfolds(View(), b, env);
        var c := Load(0);
        if !Recoverable(c, b, env) {
          break;
        }
        var ok := TakeFirst(env);
        if !ok {
          break;
        }
        recovered := recovered + 1;
      }
    }

    /** The position of a pending identifier. */
    method Position(id: string) returns (at: Option<nat>)
      requires Valid()
      ensures at == ById(View().queue, id) && (at.None? <==> id !in byID)
    {
      QueueById(byID, order, id);
      if id !in byID {
        return None;
      }
      var i := 0;
      ghost var goal := ById(View().queue, id);
      while order[i] != id
        invariant 0 <= i < |order|
        invariant goal.Some? && ById(View().queue, id, i) == goal
        decreases |order| - i
      {
        QueueAt(byID, order, i);
        i := i + 1;
      }
      QueueAt(byID, order, i);
      at := Some(i);
    }

    method LocateCall(ev: Event, env: Env) returns (ok: bool, at: Option<nat>)
      requires Valid() && ev.spare != "" && ev.spare !in byID
      modifies this
      ensures Valid()
      ensures Locate(old(View()), ev, env)
           == if !ok then Broken(View()) else if at.None? then Nothing(View()) else Found(View(), at.value)
    {
      ok, at := true, None;
      if ev.id != "" {
        at := LocateById(ev, env);
      } else if ev.index != "" {
        at := GetByContentBlockIndex(ev.index);
        if at.None? && ev.name != "" {
          Add(ev.spare, ev.name, ev.index, true);
          at := Some(|order| - 1);
        }
      } else {
        ok, at := LocateLatest(ev, env);
      }
    }

    /** An event without identifier and content block belongs to the youngest call, or names a new one. */
    method LocateLatest(ev: Event, env: Env) returns (ok: bool, at: Option<nat>)
      requires Valid() && ev.spare != "" && ev.spare !in byID && ev.id == "" && ev.index == ""
      modifies this
      ensures Valid()
      ensures Locate(old(View()), ev, env)
           == if !ok then Broken(View()) else if at.None? then Nothing(View()) else Found(View(), at.value)
    {
      ok, at := true, None;
      var latest := Latest();
      if latest.Some? && (ev.name == "" || latest.value.name == ev.name) {
        at := Some(|order| - 1);
        return;
      }
      if latest.Some? {
        Store(|order| - 1, latest.value.(stopped := true));
        ok := FlushStoppedPrefix(env);
      }
      if ok && ev.name != "" {
        Add(ev.spare, ev.name, "", true);
        at := Some(|order| - 1);
      }
    }

    /** An event with an identifier always finds or introduces its call. */
    method LocateById(ev: Event, ghost env: Env) returns (at: Option<nat>)
      requires Valid() && ev.id != ""
      modifies this
      ensures Valid() && at.Some? && Locate(old(View()), ev, env) == Found(View(), at.value)
    {
      at := Position(ev.id);
      if at.Some? {
        return;
      }
      if ev.index != "" {
        at := GetByContentBlockIndex(ev.index);
        if at.Some? {
          Rekey(at.value, ev.id);
          return;
        }
      }
      var latest := Latest();
      if latest.Some? && latest.value.generated && (ev.name == "" || latest.value.name == ev.name) {
        at := Some(|order| - 1);
        Rekey(at.value, ev.id);
        return;
      }
      Add(ev.id, ev.name, ev.index, false);
      at := Some(|order| - 1);
    }

    method FeedInput(at: nat, input: Input)
      requires Valid() && at < |order|
      modifies this`byID, this`log, this`overwritten
      ensures Valid() && View() == Feed(old(View()), at, input)
    {
      if input.NoInput? {
        return;
      }
      var c := Load(at);
      var text := if input.Text? then input.text else input.json;
      assert log + [] == log;
      if c.started && (input.Whole? || text != "") {
        log := log + [Delta(c.serial, c.id, text)];
      }
      if input.Whole? && c.started && c.buffer != "" {
        overwritten := overwritten + {c.serial};
      }
      Store(at, c.(buffer := if input.Text? then c.buffer + text else text));
    }

    method AbsorbEvent(at: nat, ev: Event, env: Env) returns (ok: bool)
      requires Valid() && at < |order|
      modifies this
      ensures Valid() && (if ok then Done(View()) else Failed(View())) == Absorb(old(View()), at, ev, env)
    {
      var c := Load(at);
      if c.name == "" && ev.name == "" && ev.stop {
        return false;
      }
      Store(at, Labelled(c, ev));
      var labelled := Load(at);
      if !labelled.started && !labelled.generated && labelled.name != "" {
        StartToolUseStream(at);
      }
      FeedInput(at, ev.input);
      ok := true;
      if ev.stop {
        var fed := Load(at);
        Store(at, fed.(stopped := true));
        ok := FlushStoppedPrefix(env);
      }
    }

    /** One tool-use payload, as the specification handles it. */
    method HandleToolUseEvent(ev: Event, env: Env) returns (ok: bool)
      requires Valid() && ev.spare != "" && ev.spare !in byID
      modifies this
      ensures Valid() && (if ok then Done(View()) else Failed(View())) == Handle(old(View()), ev, env)
    {
      var located, at := LocateCall(ev, env);
      if !located {
        return false;
      }
      if at.None? {
        return ev.stop;
      }
      ok := AbsorbEvent(at.value, ev, env);
    }
  }
}
