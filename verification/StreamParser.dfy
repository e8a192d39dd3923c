/** The event-stream parse loop and end-of-stream recovery over decoded events (proxy/kiro.go). */
module StreamParser {
  import opened Common
  import TA = ToolAssembly

  /** One result of the frame reader, already decoded; a clean end of input is the end of the sequence. */
  datatype Item =
    | Truncated
    | ReadFailure
    | LengthExceeded
    | ErrorFrame
    | EmptyPayload
    | InvalidJson
    | Untyped
    | Decoded(text: bool, reasoning: bool, limitReached: bool, tools: seq<TA.Event>,
              stopReason: string, terminal: bool, telemetry: bool)

  datatype Error = ReadError | UpstreamError | InvalidPayload | InvalidHeaders | IncompleteToolUse | IncompleteResponse

  datatype Result = Success | Failure(error: Error)

  datatype Parser = Parser(
    tools: TA.State, sawOutput: bool, completed: bool, telemetryLast: bool, recovered: bool, boundary: TA.Boundary)

  const START := Parser(TA.INITIAL, false, false, false, false, TA.NoBoundary)

  // ------------------------------------------------------------ recovery boundary

  /** Stop reasons are trimmed and lower-case. */
  function BoundaryOf(reason: string): TA.Boundary {
    if reason in {"tool_use", "tooluse"} then TA.ExplicitToolUse
    else if reason in {"max_tokens", "max_token", "max_output_tokens", "length"} then TA.OutputLimit
    else TA.ConflictingStop
  }

  function Merge(current: TA.Boundary, next: TA.Boundary): TA.Boundary {
    if current.ConflictingStop? || next.ConflictingStop? then TA.ConflictingStop
    else if current.OutputLimit? || next.OutputLimit? then TA.OutputLimit
    else if !next.NoBoundary? then next
    else current
  }

  function MergeAll(bs: seq<TA.Boundary>): TA.Boundary {
    if bs == [] then TA.NoBoundary else Merge(MergeAll(bs[..|bs| - 1]), bs[|bs| - 1])
  }

  function LastGiven(bs: seq<TA.Boundary>): (r: TA.Boundary)
    ensures r.NoBoundary? || r in bs
  {
    if bs == [] then TA.NoBoundary
    else if !bs[|bs| - 1].NoBoundary? then bs[|bs| - 1]
    else LastGiven(bs[..|bs| - 1])
  }

  /** Conflicting if any was, else an output limit if any was, else the last one given. */
  lemma {:induction false} MergedBoundary(bs: seq<TA.Boundary>)
    ensures MergeAll(bs) == if TA.ConflictingStop in bs then TA.ConflictingStop
                            else if TA.OutputLimit in bs then TA.OutputLimit
                            else LastGiven(bs)
  {
    if bs != [] {
      var init, last := bs[..|bs| - 1], bs[|bs| - 1];
      MergedBoundary(init);
      assert bs == init + [last];
      assert forall b :: b in bs <==> b in init || b == last;
    }
  }

  // ------------------------------------------------------------------- the loop

  datatype Next = Go(p: Parser) | Leave(p: Parser) | Abort(p: Parser, error: Error)

  function HandleAll(st: TA.State, evs: seq<TA.Event>, env: TA.Env): TA.Outcome {
    if evs == [] then TA.Done(st) else
      var o := HandleAll(st, evs[..|evs| - 1], env);
      if o.Failed? then o else TA.Handle(o.st, evs[|evs| - 1], env)
  }

  /** What an item says about how the response ended. */
  function Reason(item: Item): TA.Boundary {
    if item.LengthExceeded? then TA.OutputLimit
    else if item.Decoded? && item.stopReason != "" then BoundaryOf(item.stopReason)
    else TA.NoBoundary
  }

  predicate Completes(item: Item) {
    item.LengthExceeded? || (item.Decoded? && (item.stopReason != "" || item.terminal))
  }

  predicate Speaks(item: Item) {
    item.Decoded? && (item.text || item.reasoning || item.tools != [])
  }

  function AtTruncation(p: Parser, env: TA.Env): Next {
    var (t, n) := TA.Recover(p.tools, Merge(p.boundary, TA.TruncatedFrame), env);
    if n > 0 && t.queue == [] then Leave(p.(tools := t, recovered := true))
    else if t.queue != [] then Abort(p.(tools := t), IncompleteToolUse)
    else Abort(p.(tools := t), ReadError)
  }

  function AtDecoded(p: Parser, item: Item, env: TA.Env): Next
    requires item.Decoded?
  {
    if item.limitReached then
      Leave(p.(sawOutput := p.sawOutput || item.text || item.reasoning, telemetryLast := false, completed := true))
    else
      var o := HandleAll(p.tools, item.tools, env);
      if o.Failed? then Abort(p.(tools := o.st), InvalidPayload)
      else Go(Parser(o.st, p.sawOutput || Speaks(item), p.completed || Completes(item), item.telemetry, p.recovered,
                     Merge(p.boundary, Reason(item))))
  }

  function Consume(p: Parser, item: Item, env: TA.Env): Next {
    match item
    case Truncated => AtTruncation(p, env)
    case ReadFailure => Abort(p, ReadError)
    case LengthExceeded => Go(p.(completed := true, telemetryLast := false,
        boundary := Merge(p.boundary, TA.OutputLimit)))
    case ErrorFrame => Abort(p, UpstreamError)
    case EmptyPayload => Abort(p, InvalidPayload)
    case InvalidJson => Abort(p, InvalidPayload)
    case Untyped => Abort(p, InvalidHeaders)
    case Decoded(_, _, _, _, _, _, _) => AtDecoded(p, item, env)
  }

  function FinalBoundary(p: Parser): TA.Boundary {
    if p.boundary.NoBoundary? then TA.CleanEof else p.boundary
  }

  predicate UsedTool(st: TA.State) {
    exists i :: 0 <= i < |st.log| && st.log[i].Use?
  }

  /** Completion is earned by a completion signal, an emitted or recovered call, or telemetry after output. */
  predicate Earned(p: Parser, inferredEof: bool) {
    || p.completed || p.recovered || UsedTool(p.tools)
    || (p.sawOutput && (p.telemetryLast || inferredEof))
  }

  /** Recovers what is pending once the stream is over. */
  function Settle(p: Parser, env: TA.Env): Parser {
    var (t, n) := TA.Recover(p.tools, FinalBoundary(p), env);
    p.(tools := t, recovered := p.recovered || n > 0)
  }

  function Conclude(p: Parser, env: TA.Env, inferredEof: bool): (Result, TA.State) {
    var q := Settle(p, env);
    if q.tools.queue != [] then (Failure(IncompleteToolUse), q.tools)
    else if Earned(q, inferredEof) then (Success, q.tools)
    else (Failure(IncompleteResponse), q.tools)
  }

  function Parse(p: Parser, items: seq<Item>, env: TA.Env, inferredEof: bool): (Result, TA.State)
    decreases |items|
  {
    if items == [] then Conclude(p, env, inferredEof) else
      var next := Consume(p, items[0], env);
      match next
      case Go(q) => Parse(q, items[1..], env, inferredEof)
      case Leave(q) => Conclude(q, env, inferredEof)
      case Abort(q, e) => (Failure(e), q.tools)
  }

  // ----------------------------------------------------------------- whole streams

  /** Success leaves no call pending. */
  lemma {:induction false} SuccessLeavesNothingPending(p: Parser, items: seq<Item>, env: TA.Env, inferredEof: bool)
    requires Parse(p, items, env, inferredEof).0.Success?
    ensures Parse(p, items, env, inferredEof).1.queue == []
    decreases |items|
  {
    if items != [] && Consume(p, items[0], env).Go? {
      SuccessLeavesNothingPending(Consume(p, items[0], env).p, items[1..], env, inferredEof);
    }
  }

  /** The parsers met while the loop keeps going. */
  ghost predicate IsRun(ps: seq<Parser>, items: seq<Item>, env: TA.Env) {
    && |ps| == |items| + 1 && ps[0] == START
    && forall i :: 0 <= i < |items| ==> Consume(ps[i], items[i], env) == Go(ps[i + 1])
  }

  function Reasons(items: seq<Item>): seq<TA.Boundary> {
    seq(|items|, i requires 0 <= i < |items| => Reason(items[i]))
  }

  /** What one frame does to the flags. */
  predicate FlagsStep(p: Parser, item: Item, q: Parser) {
    && q.boundary == Merge(p.boundary, Reason(item)) && q.recovered == p.recovered
    && q.completed == (p.completed || Completes(item)) && q.sawOutput == (p.sawOutput || Speaks(item))
    && q.telemetryLast == (item.Decoded? && item.telemetry)
  }

  lemma {:induction false} StepFlags(p: Parser, item: Item, env: TA.Env, q: Parser)
    requires Consume(p, item, env) == Go(q)
    ensures FlagsStep(p, item, q)
  {
  }

  lemma {:induction false} RunFlags(ps: seq<Parser>, items: seq<Item>, env: TA.Env, i: nat)
    requires IsRun(ps, items, env) && i < |items|
    ensures FlagsStep(ps[i], items[i], ps[i + 1])
  {
    StepFlags(ps[i], items[i], env, ps[i + 1]);
  }

  /** The flags after any number of frames, read off the frames themselves. */
  lemma {:induction false} FlagsOfRun(ps: seq<Parser>, items: seq<Item>, env: TA.Env)
    requires IsRun(ps, items, env)
    ensures var p := ps[|items|];
      && p.boundary == MergeAll(Reasons(items))
      && (p.completed <==> exists i :: 0 <= i < |items| && Completes(items[i]))
      && (p.sawOutput <==> exists i :: 0 <= i < |items| && Speaks(items[i]))
      && !p.recovered
      && (p.telemetryLast <==> items != [] && items[|items| - 1].Decoded? && items[|items| - 1].telemetry)
  {
    forall i | 0 <= i < |items| ensures FlagsStep(ps[i], items[i], ps[i + 1]) {
      RunFlags(ps, items, env, i);
    }
    FlagsOfSteps(ps, items);
  }

  lemma {:induction false} FlagsOfSteps(ps: seq<Parser>, items: seq<Item>)
    requires |ps| == |items| + 1 && ps[0] == START
    requires forall i :: 0 <= i < |items| ==> FlagsStep(ps[i], items[i], ps[i + 1])
    ensures var p := ps[|items|];
      && p.boundary == MergeAll(Reasons(items))
      && (p.completed <==> exists i :: 0 <= i < |items| && Completes(items[i]))
      && (p.sawOutput <==> exists i :: 0 <= i < |items| && Speaks(items[i]))
      && !p.recovered
      && (p.telemetryLast <==> items != [] && items[|items| - 1].Decoded? && items[|items| - 1].telemetry)
  {
    if items != [] {
      var init, last := items[..|items| - 1], items[|items| - 1];
      FlagsOfSteps(ps[..|ps| - 1], init);
      assert FlagsStep(ps[|ps| - 2], last, ps[|ps| - 1]);
      assert Reasons(items)[..|items| - 1] == Reasons(init);
      assert items == init + [last];
      ExistsLast(init, last, Completes);
      ExistsLast(init, last, Speaks);
    }
  }

  lemma {:induction false} ExistsLast(init: seq<Item>, last: Item, holds: Item -> bool)
    ensures var items := init + [last];
      (exists i :: 0 <= i < |items| && holds(items[i])) <==>
          (exists i :: 0 <= i < |init| && holds(init[i])) || holds(last)
  {
    var items := init + [last];
    if i :| 0 <= i < |init| && holds(init[i]) {
      assert holds(items[i]);
    }
    if holds(last) {
      assert holds(items[|init|]);
    }
  }

  /** How many items the loop takes before it ends, for whatever reason. */
  function Consumed(p: Parser, items: seq<Item>, env: TA.Env): (n: nat)
    ensures n <= |items|
    decreases |items|
  {
    if items == [] || !Consume(p, items[0], env).Go? then 0
    else 1 + Consumed(Consume(p, items[0], env).p, items[1..], env)
  }

  /** The parser when the loop ends, before anything is recovered. */
  function AtEnd(p: Parser, items: seq<Item>, env: TA.Env): Parser
    decreases |items|
  {
    if items == [] then p else
      var next := Consume(p, items[0], env);
      if next.Go? then AtEnd(next.p, items[1..], env)
      else if items[0].Truncated? then p
      else next.p
  }

  /** A stop reason that is neither tool use nor an output limit. */
  predicate Conflicts(item: Item) {
    && item.Decoded? && item.stopReason != ""
    && item.stopReason != "tool_use" && item.stopReason != "tooluse" && item.stopReason != "max_tokens"
    && item.stopReason != "max_token" && item.stopReason != "max_output_tokens" && item.stopReason != "length"
  }

  lemma {:induction false} ConflictsByReason(item: Item)
    ensures Conflicts(item) <==> Reason(item).ConflictingStop?
  {
  }

  lemma {:induction false} ConflictStays(p: Parser, item: Item, env: TA.Env)
    ensures p.boundary.ConflictingStop? ==> Consume(p, item, env).p.boundary.ConflictingStop?
    ensures Consume(p, item, env).Go? && Reason(item).ConflictingStop? ==>
        Consume(p, item, env).p.boundary.ConflictingStop?
  {
  }

  lemma {:induction false} ConflictReachesEnd(p: Parser, items: seq<Item>, env: TA.Env)
    requires p.boundary.ConflictingStop?
              || exists a :: 0 <= a < Consumed(p, items, env) && Reason(items[a]).ConflictingStop?
    ensures AtEnd(p, items, env).boundary.ConflictingStop?
    decreases |items|
  {
    if items != [] {
      ConflictStays(p, items[0], env);
      var next := Consume(p, items[0], env);
      if next.Go? {
        if !next.p.boundary.ConflictingStop? {
          var a :| 0 <= a < Consumed(p, items, env) && Reason(items[a]).ConflictingStop?;
          assert items[a] == items[1..][a - 1];
        }
        ConflictReachesEnd(next.p, items[1..], env);
      }
    }
  }

  /** Every Use with arguments from some index on belongs to a call that was closed in the given queue. */
  predicate OnlyClosedSince(before: TA.State, after: TA.State) {
    forall i :: |before.log| <= i < |after.log| && after.log[i].Use? && after.log[i].args != "" ==>
      exists k :: 0 <= k < |before.queue| && before.queue[k].serial == after.log[i].serial && before.queue[k].stopped
  }

  lemma {:induction false} RecoveryIsSafe(st: TA.State, env: TA.Env)
    ensures OnlyClosedSince(st, TA.Recover(st, TA.ConflictingStop, env).0)
    ensures st.log <= TA.Recover(st, TA.ConflictingStop, env).0.log
  {
    TA.RecoverExtends(st, TA.ConflictingStop, env);
    var after := TA.Recover(st, TA.ConflictingStop, env).0;
    forall i | |st.log| <= i < |after.log| && after.log[i].Use? && after.log[i].args != ""
      ensures exists k :: 0 <= k < |st.queue| && st.queue[k].serial == after.log[i].serial && st.queue[k].stopped
    {
      TA.ConflictingStopRecoversOnlyClosed(st, TA.ConflictingStop, env, i);
    }
  }

  lemma {:induction false} NothingLeftToRecover(st: TA.State, b: TA.Boundary, env: TA.Env)
    requires st.queue == []
    ensures TA.Recover(st, b, env) == (st, 0)
  {
  }

  lemma {:induction false} EndIsSafe(p: Parser, items: seq<Item>, env: TA.Env, inferredEof: bool)
    requires AtEnd(p, items, env).boundary.ConflictingStop?
    ensures var before := AtEnd(p, items, env).tools;
      var after := Parse(p, items, env, inferredEof).1;
      before.log <= after.log && OnlyClosedSince(before, after)
    decreases |items|
  {
    var end := AtEnd(p, items, env);
    RecoveryIsSafe(end.tools, env);
    if items != [] {
      var next := Consume(p, items[0], env);
      if next.Go? {
        EndIsSafe(next.p, items[1..], env, inferredEof);
      } else if items[0].Truncated? && next.Leave? {
        NothingLeftToRecover(next.p.tools, FinalBoundary(next.p), env);
      }
    }
  }

  /**
   * Once a stop reason other than tool use or an output limit was seen, the recovery at the end of the
   * stream - at its clean end, at a truncation or at the client's output limit - emits no arguments of a
   * call that was not closed; any other end recovers nothing.
   */
  lemma {:induction false} ConflictingStopIsSafe(items: seq<Item>, env: TA.Env, inferredEof: bool, a: nat)
    requires a < Consumed(START, items, env) && Conflicts(items[a])
    ensures var before := AtEnd(START, items, env).tools;
      var after := Parse(START, items, env, inferredEof).1;
      before.log <= after.log && OnlyClosedSince(before, after)
  {
    ConflictsByReason(items[a]);
    ConflictReachesEnd(START, items, env);
    EndIsSafe(START, items, env, inferredEof);
  }

  // -------------------------------------------------- what the tool log inherits

  lemma {:induction false} HandleAllKeeps(st: TA.State, evs: seq<TA.Event>, env: TA.Env)
    requires TA.Inv(st, env, false)
    ensures TA.Inv(HandleAll(st, evs, env).st, env, false) && TA.Progress(st, HandleAll(st, evs, env).st)
  {
    if evs == [] {
      TA.ProgressReflexive(st);
    } else {
      var o := HandleAll(st, evs[..|evs| - 1], env);
      HandleAllKeeps(st, evs[..|evs| - 1], env);
      if o.Done? {
        TA.HandleKeeps(o.st, evs[|evs| - 1], env, false);
        TA.ProgressTrans(st, o.st, TA.Handle(o.st, evs[|evs| - 1], env).st);
      }
    }
  }

  lemma {:induction false} ConsumeKeeps(p: Parser, item: Item, env: TA.Env)
    requires TA.Inv(p.tools, env, false)
    ensures var q := Consume(p, item, env).p; TA.Inv(q.tools, env, false) && TA.Progress(p.tools, q.tools)
  {
    TA.ProgressReflexive(p.tools);
    if item.Truncated? {
      TA.RecoverKeeps(p.tools, Merge(p.boundary, TA.TruncatedFrame), env, false);
    }
    if item.Decoded? {
      HandleAllKeeps(p.tools, item.tools, env);
    }
  }

  /**
   * Over a whole stream, whatever its end: emitted calls keep their order and their arguments are objects,
   * and a named call that was ever pending is emitted or still pending, so on success it was emitted.
   */
  lemma {:induction false} WholeStreamAssembly(p: Parser, items: seq<Item>, env: TA.Env, inferredEof: bool)
    requires TA.Inv(p.tools, env, false)
    ensures var (r, t) := Parse(p, items, env, inferredEof);
      TA.Inv(t, env, false) && TA.Progress(p.tools, t)
    decreases |items|
  {
    if items == [] {
      SettleKeeps(p, env);
    } else {
      var next := Consume(p, items[0], env);
      ConsumeKeeps(p, items[0], env);
      var t := Parse(p, items, env, inferredEof).1;
      if next.Go? {
        WholeStreamAssembly(next.p, items[1..], env, inferredEof);
        TA.ProgressTrans(p.tools, next.p.tools, t);
      } else if next.Leave? {
        SettleKeeps(next.p, env);
        TA.ProgressTrans(p.tools, next.p.tools, t);
      }
    }
  }

  lemma {:induction false} SettleKeeps(p: Parser, env: TA.Env)
    requires TA.Inv(p.tools, env, false)
    ensures TA.Inv(Settle(p, env).tools, env, false) && TA.Progress(p.tools, Settle(p, env).tools)
  {
    TA.RecoverKeeps(p.tools, FinalBoundary(p), env, false);
  }

  /** No silent loss: if the stream succeeds, every named call that was pending at any frame has been emitted. */
  lemma {:induction false} SuccessEmitsNamedCalls(p: Parser, items: seq<Item>, env: TA.Env, inferredEof: bool, k: nat)
    requires TA.Inv(p.tools, env, false) && k < |p.tools.queue| && p.tools.queue[k].name != ""
    requires Parse(p, items, env, inferredEof).0.Success?
    ensures TA.Emitted(Parse(p, items, env, inferredEof).1, p.tools.queue[k].serial)
  {
    WholeStreamAssembly(p, items, env, inferredEof);
    SuccessLeavesNothingPending(p, items, env, inferredEof);
  }

  // ------------------------------------------------------- what recovery brings back

  /** The loop ends where pending calls are recovered: at the end, at a cut frame or at the client's output limit. */
  predicate EndsInRecovery(items: seq<Item>, n: nat) {
    n == |items| || (n < |items| && (items[n].Truncated? || (items[n].Decoded? && items[n].limitReached)))
  }

  /** An output limit, as a frame of its own or as a stop reason. */
  predicate HitsLimit(item: Item) {
    || item.LengthExceeded?
    || (item.Decoded? && (item.stopReason == "max_tokens" || item.stopReason == "max_token"
                          || item.stopReason == "max_output_tokens" || item.stopReason == "length"))
  }

  predicate StopsForTools(item: Item) {
    item.Decoded? && (item.stopReason == "tool_use" || item.stopReason == "tooluse")
  }

  /** What the first n frames leave: an output limit wins over a stop for tools. */
  function Remembered(items: seq<Item>, n: nat): TA.Boundary
    requires n <= |items|
  {
    if exists a :: 0 <= a < n && HitsLimit(items[a]) then TA.OutputLimit
    else if exists a :: 0 <= a < n && StopsForTools(items[a]) then TA.ExplicitToolUse
    else TA.NoBoundary
  }

  /** The boundary at which a stream without a conflicting stop recovers. */
  function EndBoundary(items: seq<Item>, n: nat): TA.Boundary
    requires n <= |items|
  {
    var seen := Remembered(items, n);
    if n < |items| && items[n].Truncated? then (if seen.OutputLimit? then seen else TA.TruncatedFrame)
    else if seen.NoBoundary? then TA.CleanEof else seen
  }

  /** Closed, complete or allowed to be empty, and well-formed. */
  predicate Ready(c: TA.Call, b: TA.Boundary, env: TA.Env) {
    && (c.buffer == "" || env.isObject(c.buffer))
    && (|| c.stopped
        || (env.trim(c.name) != "" && env.trim(c.buffer) != "" && env.isObject(env.trim(c.buffer)))
        || (c.buffer == "" && env.allowsEmpty(c.name, b)))
  }

  lemma {:induction false} ReasonByFields(item: Item)
    requires !Conflicts(item)
    ensures Reason(item)
         == if HitsLimit(item) then TA.OutputLimit else if StopsForTools(item) then TA.ExplicitToolUse
            else TA.NoBoundary
  {
    if item.Decoded? && item.stopReason == "" {
      assert !HitsLimit(item) && !StopsForTools(item);
    }
  }

  lemma {:induction false} RememberedStep(items: seq<Item>, n: nat)
    requires n < |items| && !Conflicts(items[n])
    ensures Remembered(items, n + 1) == Merge(Remembered(items, n), Reason(items[n]))
  {
    ReasonByFields(items[n]);
  }

  /** The loop up to any frame it takes, as a run. */
  lemma {:induction false} RunTo(items: seq<Item>, env: TA.Env, inferredEof: bool, k: nat) returns (ps: seq<Parser>)
    requires k <= Consumed(START, items, env)
    ensures IsRun(ps, items[..k], env)
    ensures Parse(START, items, env, inferredEof) == Parse(ps[k], items[k..], env, inferredEof)
    ensures AtEnd(START, items, env) == AtEnd(ps[k], items[k..], env)
    ensures Consumed(START, items, env) == k + Consumed(ps[k], items[k..], env)
  {
    if k == 0 {
      ps := [START];
      assert items[0..] == items;
    } else {
      var qs := RunTo(items, env, inferredEof, k - 1);
      var p := qs[k - 1];
      assert items[k - 1..][0] == items[k - 1] && items[k - 1..][1..] == items[k..];
      var next := Consume(p, items[k - 1], env);
      ps := qs + [next.p];
      assert items[..k][..k - 1] == items[..k - 1];
      ExtendRun(qs, items[..k], env, next.p);
    }
  }

  lemma {:induction false} ExtendRun(ps: seq<Parser>, items: seq<Item>, env: TA.Env, q: Parser)
    requires items != [] && IsRun(ps, items[..|items| - 1], env)
    requires Consume(ps[|ps| - 1], items[|items| - 1], env) == Go(q)
    ensures IsRun(ps + [q], items, env)
  {
    forall i | 0 <= i < |items| ensures Consume((ps + [q])[i], items[i], env) == Go((ps + [q])[i + 1]) {
      if i < |items| - 1 {
        assert items[..|items| - 1][i] == items[i];
      }
    }
  }

  lemma {:induction false} QuietBoundary(ps: seq<Parser>, items: seq<Item>, i: nat)
    requires |ps| == |items| + 1 && ps[0] == START && i <= |items|
    requires forall a :: 0 <= a < i ==> FlagsStep(ps[a], items[a], ps[a + 1]) && !Conflicts(items[a])
    ensures ps[i].boundary == Remembered(items, i)
  {
    if i > 0 {
      QuietBoundary(ps, items, i - 1);
      RememberedStep(items, i - 1);
      assert FlagsStep(ps[i - 1], items[i - 1], ps[i]);
    }
  }

  lemma {:induction false} CutRecovers(p: Parser, env: TA.Env, inferredEof: bool)
    ensures var next := AtTruncation(p, env);
      && !next.Go?
      && (if next.Leave? then Conclude(next.p, env, inferredEof).1 else next.p.tools)
         == TA.Recover(p.tools, Merge(p.boundary, TA.TruncatedFrame), env).0
  {
    var next := AtTruncation(p, env);
    if next.Leave? {
      NothingLeftToRecover(next.p.tools, FinalBoundary(next.p), env);
    }
  }

  lemma {:induction false} RememberedPrefix(items: seq<Item>, n: nat)
    requires n <= |items|
    ensures Remembered(items[..n], n) == Remembered(items, n)
  {
    assert forall a :: 0 <= a < n ==> items[..n][a] == items[a];
    if a :| 0 <= a < n && HitsLimit(items[a]) {
      assert HitsLimit(items[..n][a]);
    } else if a :| 0 <= a < n && StopsForTools(items[a]) {
      assert StopsForTools(items[..n][a]);
    }
  }

  /** Where the loop stops on what it takes, its end is one recovery of what is pending then. */
  lemma {:induction false} EndRecovers(p: Parser, rest: seq<Item>, env: TA.Env, inferredEof: bool)
    requires Consumed(p, rest, env) == 0 && EndsInRecovery(rest, 0)
    ensures AtEnd(p, rest, env).tools == p.tools
    ensures var b := if rest != [] && rest[0].Truncated? then Merge(p.boundary, TA.TruncatedFrame)
        else FinalBoundary(p);
      Parse(p, rest, env, inferredEof).1 == TA.Recover(p.tools, b, env).0
  {
    if rest != [] && rest[0].Truncated? {
      CutRecovers(p, env, inferredEof);
    }
  }

  lemma {:induction false} QuietEndRecovers(items: seq<Item>, env: TA.Env, inferredEof: bool)
    requires EndsInRecovery(items, Consumed(START, items, env))
    requires forall a :: 0 <= a < Consumed(START, items, env) ==> !Conflicts(items[a])
    ensures var b := EndBoundary(items, Consumed(START, items, env));
      && TA.Allows(b)
      && Parse(START, items, env, inferredEof).1 == TA.Recover(AtEnd(START, items, env).tools, b, env).0
  {
    var n := Consumed(START, items, env);
    var ps := RunTo(items, env, inferredEof, n);
    forall a | 0 <= a < n ensures FlagsStep(ps[a], items[..n][a], ps[a + 1]) && !Conflicts(items[..n][a]) {
      RunFlags(ps, items[..n], env, a);
      assert items[..n][a] == items[a];
    }
    QuietBoundary(ps, items[..n], n);
    RememberedPrefix(items, n);
    EndRecovers(ps[n], items[n..], env, inferredEof);
  }

  predicate AllReady(q: seq<TA.Call>, b: TA.Boundary, env: TA.Env, k: nat)
    requires k < |q|
  {
    forall m :: 0 <= m <= k ==> Ready(q[m], b, env)
  }

  lemma {:induction false} RecoverTakesReady(st: TA.State, b: TA.Boundary, env: TA.Env, k: nat)
    requires TA.Allows(b) && k < |st.queue| && forall m :: 0 <= m <= k ==> st.queue[m].name != ""
    ensures var c := st.queue[k]; var t := TA.Recover(st, b, env).0;
      if AllReady(st.queue, b, env, k) then TA.Use(c.serial, c.id, c.name, c.buffer) in t.log else c in t.queue
    decreases |st.queue|
  {
    var h := st.queue[0];
    if Ready(h, b, env) {
      var outs := TA.Finish(h, env).value;
      var p := TA.Pop(st, outs);
      assert forall m :: 0 <= m < |p.queue| ==> p.queue[m] == st.queue[m + 1];
      if k > 0 {
        RecoverTakesReady(p, b, env, k - 1);
        ReadyTail(st.queue, b, env, k);
      } else {
        assert p.log[|p.log| - 1] == TA.Use(h.serial, h.id, h.name, h.buffer);
        TA.RecoverExtends(p, b, env);
        assert TA.Recover(p, b, env).0.log[|p.log| - 1] == p.log[|p.log| - 1];
      }
    }
  }

  lemma {:induction false} ReadyTail(q: seq<TA.Call>, b: TA.Boundary, env: TA.Env, k: nat)
    requires 0 < k < |q| && Ready(q[0], b, env)
    ensures AllReady(q, b, env, k) <==> AllReady(q[1..], b, env, k - 1)
  {
    if AllReady(q[1..], b, env, k - 1) {
      forall m | 0 <= m <= k ensures Ready(q[m], b, env) {
        if m > 0 {
          assert q[1..][m - 1] == q[m];
        }
      }
    }
  }

  /**
   * When every stop reason seen was tool use or an output limit, the end of the stream - clean, cut or at the client's
   * output limit - emits a pending named call exactly if it and all before it are well-formed and closed, complete or
   * allowed to be empty at that end; otherwise the call stays pending and the stream fails.
   */
  lemma {:induction false} CompleteCallsAreRecovered(items: seq<Item>, env: TA.Env, inferredEof: bool, k: nat)
    requires forall a :: 0 <= a < Consumed(START, items, env) ==> !Conflicts(items[a])
    requires EndsInRecovery(items, Consumed(START, items, env))
    requires var q := AtEnd(START, items, env).tools.queue;
      k < |q| && forall m :: 0 <= m <= k ==> q[m].name != ""
    ensures var b := EndBoundary(items, Consumed(START, items, env));
      var q := AtEnd(START, items, env).tools.queue; var (r, t) := Parse(START, items, env, inferredEof);
      if AllReady(q, b, env, k) then TA.Use(q[k].serial, q[k].id, q[k].name, q[k].buffer) in t.log
      else q[k] in t.queue && r.Failure?
  {
    QuietEndRecovers(items, env, inferredEof);
    RecoverTakesReady(AtEnd(START, items, env).tools, EndBoundary(items, Consumed(START, items, env)), env, k);
    if Parse(START, items, env, inferredEof).0.Success? {
      SuccessLeavesNothingPending(START, items, env, inferredEof);
    }
  }

  // ---------------------------------------------------------------- how streams end

  /** One of the first n frames completes the response: a length error, a stop reason or a terminal marker. */
  predicate SignalsEnd(items: seq<Item>, n: nat)
    requires n <= |items|
  {
    exists i :: 0 <= i < n
      && (items[i].LengthExceeded? || (items[i].Decoded? && (items[i].stopReason != "" || items[i].terminal)))
  }

  /** One of the first n frames carries text, reasoning or tool use. */
  predicate Outputs(items: seq<Item>, n: nat)
    requires n <= |items|
  {
    exists i :: 0 <= i < n && items[i].Decoded? && (items[i].text || items[i].reasoning || items[i].tools != [])
  }

  predicate TelemetryLast(items: seq<Item>, n: nat)
    requires n <= |items|
  {
    n > 0 && items[n - 1].Decoded? && items[n - 1].telemetry
  }

  /** The error a frame ends the stream with, unless it is a cut or the client's own limit. */
  function ErrorAt(item: Item): Error {
    match item
    case ReadFailure => ReadError
    case ErrorFrame => UpstreamError
    case Untyped => InvalidHeaders
    case _ => InvalidPayload
  }

  /**
   * How a stream ends. At its clean end it succeeds exactly if nothing stays pending and a completion was signalled, a
   * call was recovered or emitted, or there was output and either telemetry came last or the end may be inferred. A
   * cut is forgiven exactly if there were pending calls and all were recovered; the client's own limit, exactly if
   * none stays pending. Every other end is an error of its own.
   */
  lemma {:induction false} StreamOutcome(items: seq<Item>, env: TA.Env, inferredEof: bool)
    ensures var n := Consumed(START, items, env); var pending := AtEnd(START, items, env).tools.queue;
      var (r, t) := Parse(START, items, env, inferredEof);
      if n == |items| then
        && (r.Success?
            <==> && t.queue == []
                 && (|| SignalsEnd(items, n) || pending != [] || (exists o :: o in t.log && o.Use?)
                     || (Outputs(items, n) && (inferredEof || TelemetryLast(items, n)))))
        && (r.Failure? ==> r.error == if t.queue != [] then IncompleteToolUse else IncompleteResponse)
      else if items[n].Truncated? then
        && (r.Success? <==> pending != [] && t.queue == [])
        && (r.Failure? ==> r.error == if t.queue != [] then IncompleteToolUse else ReadError)
      else if items[n].Decoded? && items[n].limitReached then
        && (r.Success? <==> t.queue == []) && (r.Failure? ==> r.error == IncompleteToolUse)
      else r == Failure(ErrorAt(items[n])) && !items[n].LengthExceeded?
  {
    var n := Consumed(START, items, env);
    var ps := RunTo(items, env, inferredEof, n);
    FlagsOfRun(ps, items[..n], env);
    FlagsByFields(items, n);
    if n == |items| {
      assert items[n..] == [] && items[..n] == items;
      RecoveredAll(ps[n].tools, FinalBoundary(ps[n]), env);
    } else {
      assert items[n..][0] == items[n];
      EndedBy(ps[n], items[n..], env, inferredEof);
    }
  }

  lemma {:induction false} FlagsByFields(items: seq<Item>, n: nat)
    requires n <= |items|
    ensures (exists i :: 0 <= i < |items[..n]| && Completes(items[..n][i])) <==> SignalsEnd(items, n)
    ensures (exists i :: 0 <= i < |items[..n]| && Speaks(items[..n][i])) <==> Outputs(items, n)
  {
    assert forall i :: 0 <= i < n ==> items[..n][i] == items[i];
    if i :| 0 <= i < n && Completes(items[..n][i]) {
      assert items[i] == items[..n][i];
    }
    if i :| 0 <= i < n && Speaks(items[..n][i]) {
      assert items[i] == items[..n][i];
    }
    if SignalsEnd(items, n) {
      var i :| 0 <= i < n
        && (items[i].LengthExceeded? || (items[i].Decoded? && (items[i].stopReason != "" || items[i].terminal)));
      assert Completes(items[..n][i]);
    }
    if Outputs(items, n) {
      var i :| 0 <= i < n && items[i].Decoded? && (items[i].text || items[i].reasoning || items[i].tools != []);
      assert Speaks(items[..n][i]);
    }
  }

  /** If nothing stays pending, something was recovered exactly if something was pending. */
  lemma {:induction false} RecoveredAll(st: TA.State, b: TA.Boundary, env: TA.Env)
    ensures TA.Recover(st, b, env).0.queue == [] ==> (TA.Recover(st, b, env).1 > 0 <==> st.queue != [])
  {
  }

  /** The frame that ends the loop. */
  lemma {:induction false} EndedBy(p: Parser, rest: seq<Item>, env: TA.Env, inferredEof: bool)
    requires rest != [] && Consumed(p, rest, env) == 0
    ensures var pending := AtEnd(p, rest, env).tools.queue; var (r, t) := Parse(p, rest, env, inferredEof);
      if rest[0].Truncated? then
        && (r.Success? <==> pending != [] && t.queue == [])
        && (r.Failure? ==> r.error == if t.queue != [] then IncompleteToolUse else ReadError)
      else if rest[0].Decoded? && rest[0].limitReached then
        && (r.Success? <==> t.queue == []) && (r.Failure? ==> r.error == IncompleteToolUse)
      else r == Failure(ErrorAt(rest[0])) && !rest[0].LengthExceeded?
  {
    if rest[0].Truncated? {
      CutEnds(p, env, inferredEof);
    }
  }

  lemma {:induction false} CutEnds(p: Parser, env: TA.Env, inferredEof: bool)
    ensures var t := TA.Recover(p.tools, Merge(p.boundary, TA.TruncatedFrame), env).0;
      var next := AtTruncation(p, env);
      if t.queue != [] then next == Abort(p.(tools := t), IncompleteToolUse)
      else if p.tools.queue == [] then next == Abort(p.(tools := t), ReadError)
      else next.Leave? && Conclude(next.p, env, inferredEof) == (Success, t)
  {
    RecoveredAll(p.tools, Merge(p.boundary, TA.TruncatedFrame), env);
    var next := AtTruncation(p, env);
    if next.Leave? {
      NothingLeftToRecover(next.p.tools, FinalBoundary(next.p), env);
    }
  }

  // --------------------------------------------------------------------- the parser

  lemma {:induction false} FailureStays(st: TA.State, evs: seq<TA.Event>, env: TA.Env, i: nat)
    requires i <= |evs| && HandleAll(st, evs[..i], env).Failed?
    ensures HandleAll(st, evs, env) == HandleAll(st, evs[..i], env)
  {
    if i < |evs| {
      assert evs[..|evs| - 1][..i] == evs[..i];
      FailureStays(st, evs[..|evs| - 1], env, i);
    } else {
      assert evs[..i] == evs;
    }
  }

  method HandlePayloads(st: TA.State, evs: seq<TA.Event>, env: TA.Env) returns (ok: bool, tools: TA.State)
    ensures (if ok then TA.Done(tools) else TA.Failed(tools)) == HandleAll(st, evs, env)
  {
    tools := st;
    for i := 0 to |evs|
      invariant HandleAll(st, evs[..i], env) == TA.Done(tools)
    {
      assert evs[..i + 1][..i] == evs[..i];
      var o := TA.Handle(tools, evs[i], env);
      tools := o.st;
      if o.Failed? {
        FailureStays(st, evs, env, i + 1);
        return false, tools;
      }
    }
    assert evs[..|evs|] == evs;
    ok := true;
  }

  lemma {:induction false} ParseUnfolds(p: Parser, items: seq<Item>, i: nat, env: TA.Env, inferredEof: bool)
    requires i < |items|
    ensures Parse(p, items[i..], env, inferredEof) == match Consume(p, items[i], env)
      case Go(q) => Parse(q, items[i + 1..], env, inferredEof)
      case Leave(q) => Conclude(q, env, inferredEof)
      case Abort(q, e) => (Failure(e), q.tools)
  {
    assert items[i..][0] == items[i] && items[i..][1..] == items[i + 1..];
  }

  /** The parse loop; completions counts the calls of the completion callback. */
  method ParseEventStream(items: seq<Item>, env: TA.Env, inferredEof: bool)
    returns (result: Result, completions: nat, tools: TA.State)
    ensures (result, tools) == Parse(START, items, env, inferredEof)
    ensures completions == if result.Success? then 1 else 0
    ensures result.Success? ==> tools.queue == []
  {
    completions, tools := 0, TA.INITIAL;
    var sawOutput, sawExplicitCompletion, lastFrameWasTelemetry, recoveredToolUse := false, false, false, false;
    var boundary := TA.NoBoundary;
    ghost var goal := Parse(START, items, env, inferredEof);
    ghost var p := START;
    var i := 0;
    assert items[0..] == items;
    while i < |items|
      invariant 0 <= i <= |items| && completions == 0
      invariant p == Parser(tools, sawOutput, sawExplicitCompletion, lastFrameWasTelemetry, recoveredToolUse, boundary)
      invariant Parse(p, items[i..], env, inferredEof) == goal
    {
      var item := items[i];
      ParseUnfolds(p, items, i, env, inferredEof);
      i := i + 1;
      ghost var next := Consume(p, item, env);
      p := next.p;
      if !item.Truncated? && !item.ReadFailure? {
        lastFrameWasTelemetry := false;
      }
      match item {
        case Truncated =>
          var (t, n) := TA.Recover(tools, Merge(boundary, TA.TruncatedFrame), env);
          tools := t;
          if n > 0 && tools.queue == [] {
            recoveredToolUse := true;
            break;
          }
          return Failure(if tools.queue != [] then IncompleteToolUse else ReadError), 0, tools;
        case ReadFailure =>
          return Failure(ReadError), 0, tools;
        case LengthExceeded =>
          sawExplicitCompletion := true;
          boundary := Merge(boundary, TA.OutputLimit);
        case ErrorFrame =>
          return Failure(UpstreamError), 0, tools;
        case EmptyPayload =>
          return Failure(InvalidPayload), 0, tools;
        case InvalidJson =>
          return Failure(InvalidPayload), 0, tools;
        case Untyped =>
          return Failure(InvalidHeaders), 0, tools;
        case Decoded(text, reasoning, limitReached, evs, stopReason, terminal, telemetry) =>
          if text || reasoning {
            sawOutput := true;
          }
          if limitReached {
            sawExplicitCompletion := true;
            break;
          }
          var ok;
          ok, tools := HandlePayloads(tools, evs, env);
          if !ok {
            return Failure(InvalidPayload), 0, tools;
          }
          if evs != [] {
            sawOutput := true;
          }
          if stopReason != "" {
            sawExplicitCompletion := true;
            boundary := Merge(boundary, BoundaryOf(stopReason));
          }
          if terminal {
            sawExplicitCompletion := true;
          }
          lastFrameWasTelemetry := telemetry;
      }
    }
    assert Conclude(p, env, inferredEof) == goal;
    result, completions, tools := FinishStream(p, tools, sawOutput, sawExplicitCompletion, lastFrameWasTelemetry,
        recoveredToolUse,
                                               boundary, env, inferredEof);
  }

  /** What follows the loop: recovery of pending calls, then the completion checks. */
  method FinishStream(
    ghost p: Parser, pending: TA.State, sawOutput: bool, explicitCompletion: bool, lastFrameWasTelemetry: bool,
        recovered: bool,
    boundary: TA.Boundary, env: TA.Env, inferredEof: bool)
    returns (result: Result, completions: nat, tools: TA.State)
    requires p == Parser(pending, sawOutput, explicitCompletion, lastFrameWasTelemetry, recovered, boundary)
    ensures (result, tools) == Conclude(p, env, inferredEof)
    ensures completions == if result.Success? then 1 else 0
    ensures result.Success? ==> tools.queue == []
  {
    tools, completions := pending, 0;
    var sawExplicitCompletion, recoveredToolUse := explicitCompletion, recovered;
    if tools.queue != [] {
      var (t, n) := TA.Recover(tools, if boundary.NoBoundary? then TA.CleanEof else boundary, env);
      tools := t;
      recoveredToolUse := recoveredToolUse || n > 0;
      if tools.queue != [] {
        return Failure(IncompleteToolUse), 0, tools;
      }
    }
    var sawToolUse := UsedTool(tools);
    if !sawOutput && !sawToolUse && !recoveredToolUse && !sawExplicitCompletion {
      return Failure(IncompleteResponse), 0, tools;
    }
    var legacyTelemetryCompletion := lastFrameWasTelemetry && !sawExplicitCompletion;
    if sawOutput && !sawExplicitCompletion && !legacyTelemetryCompletion && !recoveredToolUse && !sawToolUse
        && inferredEof {
      sawExplicitCompletion := true;
    }
    if sawOutput && !sawExplicitCompletion && !legacyTelemetryCompletion && !recoveredToolUse && !sawToolUse {
      return Failure(IncompleteResponse), 0, tools;
    }
    completions := completions + 1;
    result := Success;
  }
}
