/** AbstractNode: a node's configuration and hooks, and `execute`, which runs
    the skip check and the node's work while building one log line. */
module Nodes {
  import opened Levels
  import opened Exceptions
  import opened Decimal
  import opened Log

  const NODE_LOG := "nodeLog "
  const LOG_END := " execute success"
  const NODE_CHAIN_NAME := " nodeChainName="
  const NODE_NAME := " nodeName="
  const LOG_SKIP := " skip="
  const LOG_TIME := " time="
  const BEFORE_EXECUTE_PARAMS := " beforeExecuteParams="
  const AFTER_EXECUTE_PARAMS := " afterExecuteParams="
  const TRUE := "true"
  const FALSE := "false"

  /** The chain context: the string that tags this run's log lines and the
      business payload the nodes work on. */
  datatype ChainContext<T> = ChainContext(logStr: JString, info: T)

  /** What a call into node code did: the context as it left it (a call may
      change the context and still throw) and whether it returned or threw. */
  datatype Step<T, R> = Step(ctx: ChainContext<T>, result: Try<R>)

  /** A hook without arguments or result: it returns or it throws. */
  datatype Hook = Returns | Throws(exc: Throwable)

  /** A node: its class name, its stored failure-handling and timeout codes,
      and the behaviour of the methods a subclass may override. */
  datatype Node<!T> = Node(
    name: string,
    failHandle: int,
    timeout: int,
    isSkip: ChainContext<T> -> Step<T, bool>,
    process: ChainContext<T> -> Step<T, ()>,
    beforeLog: Hook,
    afterLog: Hook)

  /** A node as the abstract class leaves it apart from `process`: failHandle
      is the INTERRUPT code, timeout the COMMONLY code (both passed in, as their
      values are not part of this model), isSkip returns false without touching
      the context, and beforeLog and afterLog do nothing. */
  function NewNode<T>(name: string, interruptCode: int, commonlyCode: int,
                      process: ChainContext<T> -> Step<T, ()>): Node<T>
  {
    Node(name, interruptCode, commonlyCode, c => Step(c, Returned(false)), process, Returns, Returns)
  }

  /** The calls execute makes into code it does not own, in order. */
  datatype Call = ToJson | BeforeLog | IsSkip | Process | AfterLog

  /** The state of an execution in progress. */
  datatype Run<T> = Run(sink: Sink, calls: seq<Call>, ctx: ChainContext<T>)

  /** What the node's own code did inside the try block: the calls made, the
      context it left, and either the skip decision or the first throwable. */
  datatype Worked<T> = Worked(calls: seq<Call>, ctx: ChainContext<T>, outcome: Try<bool>)

  /** What execute leaves behind: the buffer and the lines it logged, the calls
      it made, the context, and whether it returned or rethrew. */
  datatype Execution<T> = Execution(sink: Sink, calls: seq<Call>, ctx: ChainContext<T>, outcome: Try<()>)

  function SkipText(skip: bool): string
  {
    if skip then TRUE else FALSE
  }

  /** The calls the try block makes between the two serialisations when no
      call throws. */
  function BodyCalls(skip: bool): seq<Call>
  {
    [BeforeLog, IsSkip] + (if skip then [] else [Process]) + [AfterLog]
  }

  /** The calls of a successful execution: both serialisations happen whatever
      the level. */
  function SuccessCalls(skip: bool): seq<Call>
  {
    [ToJson] + BodyCalls(skip) + [ToJson]
  }

  /** The node code of the try block: beforeLog, isSkip, process unless
      skipped, afterLog; the first call that throws ends the block. Process is
      called exactly when isSkip returned false, and the block returns exactly
      when none of the calls threw, with isSkip's answer and the context the
      last call left. */
  function Work<T>(node: Node<T>, ctx: ChainContext<T>): (w: Worked<T>)
    ensures Process in w.calls <==> node.beforeLog.Returns? && node.isSkip(ctx).result == Returned(false)
    ensures w.outcome.Returned? <==>
      && node.beforeLog.Returns?
      && node.isSkip(ctx).result.Returned?
      && (node.isSkip(ctx).result.value || node.process(node.isSkip(ctx).ctx).result.Returned?)
      && node.afterLog.Returns?
    ensures w.outcome.Returned? ==> w.outcome == node.isSkip(ctx).result
    ensures w.outcome.Returned? ==>
      w.ctx == (if w.outcome.value then node.isSkip(ctx).ctx else node.process(node.isSkip(ctx).ctx).ctx)
  {
    if node.beforeLog.Throws? then Worked([BeforeLog], ctx, Threw(node.beforeLog.exc))
    else
      var s := node.isSkip(ctx);
      if s.result.Threw? then Worked([BeforeLog, IsSkip], s.ctx, Threw(s.result.exc))
      else if s.result.value then
        if node.afterLog.Throws? then Worked([BeforeLog, IsSkip, AfterLog], s.ctx, Threw(node.afterLog.exc))
        else Worked([BeforeLog, IsSkip, AfterLog], s.ctx, Returned(true))
      else
        var p := node.process(s.ctx);
        if p.result.Threw? then Worked([BeforeLog, IsSkip, Process], p.ctx, Threw(p.result.exc))
        else if node.afterLog.Throws? then Worked([BeforeLog, IsSkip, Process, AfterLog], p.ctx, Threw(node.afterLog.exc))
        else Worked([BeforeLog, IsSkip, Process, AfterLog], p.ctx, Returned(false))
  }

  /** The calls of the try block follow the fixed order beforeLog, isSkip,
      process (unless skipped), afterLog and stop early only at a throw; so
      afterLog is reached only after isSkip and process returned. */
  lemma WorkFollowsBody<T>(node: Node<T>, ctx: ChainContext<T>)
    ensures var w := Work(node, ctx);
      && w.calls <= BodyCalls(node.isSkip(ctx).result == Returned(true))
      && (w.outcome.Returned? ==> w.calls == BodyCalls(w.outcome.value))
      && (AfterLog in w.calls ==>
            node.isSkip(ctx).result.Returned?
            && (node.isSkip(ctx).result.value || node.process(node.isSkip(ctx).ctx).result.Returned?))
  {
    var w := Work(node, ctx);
    var s := node.isSkip(ctx);
    if node.beforeLog.Throws? {
      assert w.calls == [BeforeLog];
    } else if s.result.Threw? {
      assert w.calls == [BeforeLog, IsSkip];
    } else if s.result.value {
      assert w.calls == [BeforeLog, IsSkip, AfterLog] == BodyCalls(true);
    } else if node.process(s.ctx).result.Threw? {
      assert w.calls == [BeforeLog, IsSkip, Process];
    } else {
      assert w.calls == [BeforeLog, IsSkip, Process, AfterLog] == BodyCalls(false);
    }
  }

  /** Process is called at most once. */
  lemma ProcessAtMostOnce<T>(node: Node<T>, ctx: ChainContext<T>)
    ensures multiset(Work(node, ctx).calls)[Process] <= 1
  {
    var w := Work(node, ctx);
    var s := node.isSkip(ctx);
    if node.beforeLog.Returns? && s.result == Returned(false) {
      var tail := if node.process(s.ctx).result.Threw? then [] else [AfterLog];
      assert w.calls == [BeforeLog, IsSkip] + [Process] + tail;
      assert multiset(w.calls) == multiset([BeforeLog, IsSkip]) + multiset([Process]) + multiset(tail);
    } else {
      assert Process !in w.calls;
    }
  }

  /** The identity group of the line. */
  function IdentityGroup(chainName: string, nodeName: string): seq<string>
  {
    [LOG_END, NODE_CHAIN_NAME, chainName, NODE_NAME, nodeName]
  }

  /** The opening of the try block: the identity group (at least BASE) and the
      serialised context before the work (at least BASE_AND_TIME_AND_PARAMS). */
  function Start<T>(node: Node<T>, codes: LevelCodes, toJson: ChainContext<T> -> JString,
                    ctx: ChainContext<T>, logLevel: int, nodeChainName: JString): (r: Run<T>)
    ensures r.calls == [ToJson] && r.ctx == ctx && r.sink.emitted == []
    ensures r.sink.buf ==
      [NODE_LOG + ValueOf(ctx.logStr)]
      + (if LevelOf(codes, logLevel) != NO then IdentityGroup(ValueOf(nodeChainName), node.name) else [])
      + (if LevelOf(codes, logLevel) == BASE_AND_TIME_AND_PARAMS
         then [BEFORE_EXECUTE_PARAMS, ValueOf(toJson(ctx))] else [])
  {
    AdmitsByLevel(codes, logLevel, BASE);
    AdmitsByLevel(codes, logLevel, BASE_AND_TIME_AND_PARAMS);
    var s0 := Sink([NODE_LOG + ValueOf(ctx.logStr)], []);
    var g1 := IdentityGroup(ValueOf(nodeChainName), node.name);
    AppendExactlyWhenAdmitted(s0, g1, codes, logLevel, codes.base);
    var s1 := BuildLogInfo(s0, g1, codes, logLevel, codes.base, false);
    var before := toJson(ctx);
    var g2 := [BEFORE_EXECUTE_PARAMS, ValueOf(before)];
    AppendExactlyWhenAdmitted(s1, g2, codes, logLevel, codes.baseAndTimeAndParams);
    var s2 := BuildLogInfo(s1, g2, codes, logLevel, codes.baseAndTimeAndParams, false);
    Run(s2, [ToJson], ctx)
  }

  /** The skip group (at least BASE), appended once isSkip has returned. The
      buffer is private to execute, so appending it after the node code has
      run gives the same buffer as appending it between isSkip and process. */
  function LogSkip<T>(node: Node<T>, codes: LevelCodes, logLevel: int, ctx: ChainContext<T>, s: Sink): (r: Sink)
    ensures r.emitted == s.emitted
    ensures r.buf == s.buf
      + (if node.beforeLog.Returns? && node.isSkip(ctx).result.Returned? && LevelOf(codes, logLevel) != NO
         then [LOG_SKIP, SkipText(node.isSkip(ctx).result.value)] else [])
  {
    var result := node.isSkip(ctx).result;
    if node.beforeLog.Returns? && result.Returned? then
      AdmitsByLevel(codes, logLevel, BASE);
      AppendExactlyWhenAdmitted(s, [LOG_SKIP, SkipText(result.value)], codes, logLevel, codes.base);
      BuildLogInfo(s, [LOG_SKIP, SkipText(result.value)], codes, logLevel, codes.base, false)
    else
      s
  }

  /** The end of the try block: the serialised context after the work (at least
      BASE_AND_TIME_AND_PARAMS), then the elapsed time (at least BASE_AND_TIME)
      with the one call that prints. Unless the level is NO, the buffer leaves
      as exactly one info line and is empty afterwards. */
  function Finish<T>(codes: LevelCodes, toJson: ChainContext<T> -> JString, logLevel: int,
                     elapsed: Long, r: Run<T>): (e: Execution<T>)
    ensures e.outcome == Returned(()) && e.calls == r.calls + [ToJson] && e.ctx == r.ctx
    ensures LevelOf(codes, logLevel) != NO ==>
      && e.sink.buf == []
      && e.sink.emitted == r.sink.emitted + [Info(Concat(r.sink.buf
           + (if LevelOf(codes, logLevel) == BASE_AND_TIME_AND_PARAMS
              then [AFTER_EXECUTE_PARAMS, ValueOf(toJson(r.ctx))] else [])
           + (if LevelOf(codes, logLevel) != BASE then [LOG_TIME, LongToString(elapsed)] else [])))]
    ensures LevelOf(codes, logLevel) == NO ==> e.sink == r.sink
  {
    AdmitsByLevel(codes, logLevel, BASE_AND_TIME);
    AdmitsByLevel(codes, logLevel, BASE_AND_TIME_AND_PARAMS);
    var after := toJson(r.ctx);
    var g1 := [AFTER_EXECUTE_PARAMS, ValueOf(after)];
    AppendExactlyWhenAdmitted(r.sink, g1, codes, logLevel, codes.baseAndTimeAndParams);
    var s1 := BuildLogInfo(r.sink, g1, codes, logLevel, codes.baseAndTimeAndParams, false);
    var g2 := [LOG_TIME, LongToString(elapsed)];
    FlushEmitsBuffer(s1, g2, codes, logLevel, codes.baseAndTime);
    var s2 := BuildLogInfo(s1, g2, codes, logLevel, codes.baseAndTime, true);
    var g1' := if LevelOf(codes, logLevel) == BASE_AND_TIME_AND_PARAMS then g1 else [];
    var g2' := if Admits(codes, logLevel, codes.baseAndTime) then g2 else [];
    assert s1.buf == r.sink.buf + g1';
    ConcatAppend(r.sink.buf + g1', g2');
    assert Concat([]) == "";
    Execution(s2, r.calls + [ToJson], r.ctx, Returned(()))
  }

  /** The lines the catch blocks log for a throwable: one error line for a
      business exception or any other exception, none for an Error, which
      neither handler catches. */
  function FailureLines(logStr: string, nodeName: string, e: Throwable): seq<Line>
  {
    match e
    case BusinessException(_, _) =>
      [ErrorLine(logStr + " execute business fail nodeName={} msg={}", [Text(nodeName), StackTrace(e)])]
    case OtherException(_) =>
      [ErrorLine(logStr + " execute fail nodeName={} msg={}", [Text(nodeName), StackTrace(e)])]
    case JavaError(_) => []
  }

  /** The catch blocks: log the failure, then rethrow the same throwable. */
  function Fail<T>(r: Run<T>, logStr: string, nodeName: string, exc: Throwable): (e: Execution<T>)
    ensures e.outcome == Threw(exc) && e.calls == r.calls && e.ctx == r.ctx && e.sink.buf == r.sink.buf
    ensures e.sink.emitted == r.sink.emitted + FailureLines(logStr, nodeName, exc)
  {
    Execution(r.sink.(emitted := r.sink.emitted + FailureLines(logStr, nodeName, exc)), r.calls, r.ctx, Threw(exc))
  }

  /** `execute(nodeChainContext, logLevel, nodeChainName)`. The serialiser is
      `toJson` and the stop watch's reading is `elapsed`. */
  function Execute<T>(node: Node<T>, codes: LevelCodes, toJson: ChainContext<T> -> JString,
                      ctx: ChainContext<T>, logLevel: int, nodeChainName: JString, elapsed: Long): (e: Execution<T>)
    // success: the whole call sequence, and at most one line, an info line
    ensures e.outcome.Returned? <==> Work(node, ctx).outcome.Returned?
    ensures e.outcome.Returned? ==>
      && |e.sink.emitted| == (if LevelOf(codes, logLevel) == NO then 0 else 1)
      && (forall i :: 0 <= i < |e.sink.emitted| ==> e.sink.emitted[i].Info?)
    ensures e.outcome.Returned? && LevelOf(codes, logLevel) != NO ==> e.sink.buf == []
    // failure: the first throwable is rethrown unchanged and only the failure is logged
    ensures e.outcome.Threw? ==> Work(node, ctx).outcome.Threw? && e.outcome.exc == Work(node, ctx).outcome.exc
    ensures e.outcome.Threw? ==>
      e.sink.emitted == FailureLines(NODE_LOG + ValueOf(ctx.logStr), node.name, e.outcome.exc)
  {
    var logStr := NODE_LOG + ValueOf(ctx.logStr);
    var r := Start(node, codes, toJson, ctx, logLevel, nodeChainName);
    var w := Work(node, ctx);
    var r := Run(LogSkip(node, codes, logLevel, ctx, r.sink), r.calls + w.calls, w.ctx);
    if w.outcome.Threw? then Fail(r, logStr, node.name, w.outcome.exc)
    else Finish(codes, toJson, logLevel, elapsed, r)
  }

  /** The calls execute makes: one serialisation, the node code as Work
      describes it, and the second serialisation only when nothing threw. */
  lemma ExecuteCalls<T>(node: Node<T>, codes: LevelCodes, toJson: ChainContext<T> -> JString,
                        ctx: ChainContext<T>, logLevel: int, nodeChainName: JString, elapsed: Long)
    ensures var e := Execute(node, codes, toJson, ctx, logLevel, nodeChainName, elapsed);
      && (e.outcome.Returned? ==>
            node.isSkip(ctx).result.Returned? && e.calls == SuccessCalls(node.isSkip(ctx).result.value))
      && (e.outcome.Threw? ==> e.calls == [ToJson] + Work(node, ctx).calls)
  {
    var w := Work(node, ctx);
    if w.outcome.Returned? {
      assert [ToJson] + w.calls + [ToJson] == SuccessCalls(w.outcome.value);
    }
  }
}
