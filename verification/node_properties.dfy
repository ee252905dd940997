/** Properties of a node's execute that relate several calls or compare the
    line it logs with the per-level field layout of the success line. */
module NodeProperties {
  import opened Levels
  import opened Exceptions
  import opened Decimal
  import opened Log
  import opened Nodes

  /** The success line, field by field, at each level: identity and skip at
      BASE; the time added at BASE_AND_TIME; the serialised context before the
      work (placed ahead of the skip field) and after it added at
      BASE_AND_TIME_AND_PARAMS; nothing at NO. */
  function SuccessFields(l: Level, logStr: string, chainName: string, nodeName: string,
                         before: string, skip: bool, after: string, time: string): seq<string>
  {
    var identity := [NODE_LOG + logStr, LOG_END, NODE_CHAIN_NAME, chainName, NODE_NAME, nodeName];
    var skipField := [LOG_SKIP, SkipText(skip)];
    match l
    case NO => []
    case BASE => identity + skipField
    case BASE_AND_TIME => identity + skipField + [LOG_TIME, time]
    case BASE_AND_TIME_AND_PARAMS =>
      identity + [BEFORE_EXECUTE_PARAMS, before] + skipField + [AFTER_EXECUTE_PARAMS, after, LOG_TIME, time]
  }

  /** The pieces execute appends, group by group as the gate admits them,
      make up the success line's fields at every level other than NO. */
  lemma GroupsMakeFields(l: Level, logStr: string, chainName: string, nodeName: string,
                         before: string, skip: bool, after: string, time: string)
    requires l != NO
    ensures [NODE_LOG + logStr]
      + IdentityGroup(chainName, nodeName)
      + (if l == BASE_AND_TIME_AND_PARAMS then [BEFORE_EXECUTE_PARAMS, before] else [])
      + [LOG_SKIP, SkipText(skip)]
      + (if l == BASE_AND_TIME_AND_PARAMS then [AFTER_EXECUTE_PARAMS, after] else [])
      + (if l != BASE then [LOG_TIME, time] else [])
      == SuccessFields(l, logStr, chainName, nodeName, before, skip, after, time)
  {
  }

  /** A successful execution at a level other than NO emits the buffer built
      by the opening, the skip group and the closing groups as one line. */
  lemma SuccessLineIsBuffer<T>(node: Node<T>, codes: LevelCodes, toJson: ChainContext<T> -> JString,
                               ctx: ChainContext<T>, logLevel: int, nodeChainName: JString, elapsed: Long)
    requires Work(node, ctx).outcome.Returned?
    ensures var e := Execute(node, codes, toJson, ctx, logLevel, nodeChainName, elapsed);
      var l := LevelOf(codes, logLevel);
      && e.ctx == Work(node, ctx).ctx
      && (l != NO ==>
          e.sink.emitted == [Info(Concat(
            LogSkip(node, codes, logLevel, ctx, Start(node, codes, toJson, ctx, logLevel, nodeChainName).sink).buf
            + (if l == BASE_AND_TIME_AND_PARAMS then [AFTER_EXECUTE_PARAMS, ValueOf(toJson(Work(node, ctx).ctx))] else [])
            + (if l != BASE then [LOG_TIME, LongToString(elapsed)] else [])))])
  {
  }

  /** A successful execution logs exactly the fields of `SuccessFields`, in
      its order, as one info line, or nothing at all at NO. */
  lemma SuccessLineLayout<T>(node: Node<T>, codes: LevelCodes, toJson: ChainContext<T> -> JString,
                             ctx: ChainContext<T>, logLevel: int, nodeChainName: JString, elapsed: Long)
    requires Work(node, ctx).outcome.Returned?
    ensures var e := Execute(node, codes, toJson, ctx, logLevel, nodeChainName, elapsed);
      var l := LevelOf(codes, logLevel);
      e.sink.emitted ==
        if l == NO then []
        else [Info(Concat(SuccessFields(l, ValueOf(ctx.logStr), ValueOf(nodeChainName), node.name,
                                        ValueOf(toJson(ctx)), node.isSkip(ctx).result.value,
                                        ValueOf(toJson(e.ctx)), LongToString(elapsed))))]
  {
    var l := LevelOf(codes, logLevel);
    SuccessLineIsBuffer(node, codes, toJson, ctx, logLevel, nodeChainName, elapsed);
    if l != NO {
      GroupsMakeFields(l, ValueOf(ctx.logStr), ValueOf(nodeChainName), node.name,
                       ValueOf(toJson(ctx)), node.isSkip(ctx).result.value,
                       ValueOf(toJson(Work(node, ctx).ctx)), LongToString(elapsed));
    }
  }

  /** At BASE the line is printed without a time field: it is the same
      whatever the stop watch read and whatever the serialiser returns. */
  lemma BaseLineHasNoTime<T>(node: Node<T>, codes: LevelCodes, toJson: ChainContext<T> -> JString,
                             toJson': ChainContext<T> -> JString, ctx: ChainContext<T>, logLevel: int,
                             nodeChainName: JString, elapsed: Long, elapsed': Long)
    requires Work(node, ctx).outcome.Returned?
    requires LevelOf(codes, logLevel) == BASE
    ensures Execute(node, codes, toJson, ctx, logLevel, nodeChainName, elapsed).sink.emitted
         == Execute(node, codes, toJson', ctx, logLevel, nodeChainName, elapsed').sink.emitted
  {
    SuccessLineLayout(node, codes, toJson, ctx, logLevel, nodeChainName, elapsed);
    SuccessLineLayout(node, codes, toJson', ctx, logLevel, nodeChainName, elapsed');
  }

  /** At NO a successful execution logs nothing and appends no fragment: the
      buffer still holds only the prefix it was created with. */
  lemma SilentAtNo<T>(node: Node<T>, codes: LevelCodes, toJson: ChainContext<T> -> JString,
                      ctx: ChainContext<T>, nodeChainName: JString, elapsed: Long)
    requires Work(node, ctx).outcome.Returned?
    ensures var e := Execute(node, codes, toJson, ctx, codes.no, nodeChainName, elapsed);
      e.sink.emitted == [] && e.sink.buf == [NODE_LOG + ValueOf(ctx.logStr)]
  {
  }

  /** The serialiser is called before and after the work at every level, even
      when neither snapshot is appended to the line. */
  lemma SerialisesAtEveryLevel<T>(node: Node<T>, codes: LevelCodes, toJson: ChainContext<T> -> JString,
                                  ctx: ChainContext<T>, logLevel: int, nodeChainName: JString, elapsed: Long)
    requires Work(node, ctx).outcome.Returned?
    ensures var e := Execute(node, codes, toJson, ctx, logLevel, nodeChainName, elapsed);
      multiset(e.calls)[ToJson] == 2 && e.calls[0] == ToJson && e.calls[|e.calls| - 1] == ToJson
  {
    ExecuteCalls(node, codes, toJson, ctx, logLevel, nodeChainName, elapsed);
    SuccessCallsSerialiseTwice(node.isSkip(ctx).result.value);
  }

  lemma SuccessCallsSerialiseTwice(skip: bool)
    ensures var calls := SuccessCalls(skip);
      multiset(calls)[ToJson] == 2 && calls[0] == ToJson && calls[|calls| - 1] == ToJson
  {
    var middle := BodyCalls(skip);
    assert ToJson !in middle;
    assert multiset(middle)[ToJson] == 0;
    assert multiset(SuccessCalls(skip)) == multiset([ToJson]) + multiset(middle) + multiset([ToJson]);
  }

  /** When isSkip returns true, process is never called; when it returns
      false, process is called exactly once. */
  lemma SkipDecidesProcess<T>(node: Node<T>, codes: LevelCodes, toJson: ChainContext<T> -> JString,
                              ctx: ChainContext<T>, logLevel: int, nodeChainName: JString, elapsed: Long)
    requires node.beforeLog.Returns? && node.isSkip(ctx).result.Returned?
    ensures var e := Execute(node, codes, toJson, ctx, logLevel, nodeChainName, elapsed);
      multiset(e.calls)[Process] == if node.isSkip(ctx).result.value then 0 else 1
  {
    ExecuteCalls(node, codes, toJson, ctx, logLevel, nodeChainName, elapsed);
    ProcessAtMostOnce(node, ctx);
    var w := Work(node, ctx);
    var e := Execute(node, codes, toJson, ctx, logLevel, nodeChainName, elapsed);
    assert multiset(e.calls)[Process] == multiset(w.calls)[Process] by {
      if w.outcome.Returned? {
        assert e.calls == [ToJson] + w.calls + [ToJson];
      } else {
        assert e.calls == [ToJson] + w.calls;
      }
    }
    if node.isSkip(ctx).result.value {
      assert Process !in w.calls;
    } else {
      assert Process in w.calls;
    }
  }

  /** If isSkip or process throws, execute rethrows that same throwable,
      afterLog is not reached, no info line is logged whatever the level, and
      one error line is logged unless the throwable is an Error. */
  lemma FailureRethrownUnchanged<T>(node: Node<T>, codes: LevelCodes, toJson: ChainContext<T> -> JString,
                                    ctx: ChainContext<T>, logLevel: int, nodeChainName: JString, elapsed: Long,
                                    exc: Throwable)
    requires node.beforeLog.Returns?
    requires node.isSkip(ctx).result == Threw(exc)
      || (node.isSkip(ctx).result == Returned(false) && node.process(node.isSkip(ctx).ctx).result == Threw(exc))
    ensures var e := Execute(node, codes, toJson, ctx, logLevel, nodeChainName, elapsed);
      && e.outcome == Threw(exc)
      && AfterLog !in e.calls
      && (forall i :: 0 <= i < |e.sink.emitted| ==> e.sink.emitted[i].ErrorLine?)
      && |e.sink.emitted| == (if exc.JavaError? then 0 else 1)
  {
    ExecuteCalls(node, codes, toJson, ctx, logLevel, nodeChainName, elapsed);
  }

  /** A process that calls businessFail makes execute log a business failure
      line carrying the exception and rethrow exactly that exception. */
  lemma BusinessFailSurfaces<T>(name: string, interruptCode: int, commonlyCode: int,
                                codes: LevelCodes, toJson: ChainContext<T> -> JString,
                                ctx: ChainContext<T>, logLevel: int, nodeChainName: JString, elapsed: Long,
                                code: int, msg: string)
    ensures var node := NewNode(name, interruptCode, commonlyCode, (c: ChainContext<T>) => Step(c, BusinessFail(code, msg)));
      var e := Execute(node, codes, toJson, ctx, logLevel, nodeChainName, elapsed);
      && e.outcome == Threw(BusinessException(code, msg))
      && e.sink.emitted == [ErrorLine(NODE_LOG + ValueOf(ctx.logStr) + " execute business fail nodeName={} msg={}",
                                      [Text(name), StackTrace(BusinessException(code, msg))])]
  {
  }

  /** A node that overrides only process keeps the INTERRUPT and COMMONLY
      codes, never skips, calls process exactly once, and succeeds exactly
      when process returns. */
  lemma DefaultNodeRunsProcess<T>(name: string, interruptCode: int, commonlyCode: int,
                                  process: ChainContext<T> -> Step<T, ()>,
                                  codes: LevelCodes, toJson: ChainContext<T> -> JString,
                                  ctx: ChainContext<T>, logLevel: int, nodeChainName: JString, elapsed: Long)
    ensures var node := NewNode(name, interruptCode, commonlyCode, process);
      var e := Execute(node, codes, toJson, ctx, logLevel, nodeChainName, elapsed);
      && node.failHandle == interruptCode && node.timeout == commonlyCode
      && multiset(e.calls)[Process] == 1
      && (e.outcome.Returned? <==> process(ctx).result.Returned?)
      && e.ctx == process(ctx).ctx
  {
    var node := NewNode(name, interruptCode, commonlyCode, process);
    assert node.isSkip(ctx) == Step(ctx, Returned(false));
    SkipDecidesProcess(node, codes, toJson, ctx, logLevel, nodeChainName, elapsed);
  }

  /** An unrecognised level code behaves exactly as the BASE_AND_TIME code:
      same lines, same buffer, same calls, same context, same outcome. */
  lemma UnknownLevelActsAsBaseAndTime<T>(node: Node<T>, codes: LevelCodes, toJson: ChainContext<T> -> JString,
                                         ctx: ChainContext<T>, logLevel: int, nodeChainName: JString, elapsed: Long)
    requires !ContainsCode(codes, logLevel)
    ensures Execute(node, codes, toJson, ctx, logLevel, nodeChainName, elapsed)
         == Execute(node, codes, toJson, ctx, codes.baseAndTime, nodeChainName, elapsed)
  {
    forall s: Sink, infos: seq<string>, t: int, p: bool
      ensures BuildLogInfo(s, infos, codes, logLevel, t, p) == BuildLogInfo(s, infos, codes, codes.baseAndTime, t, p)
    {
      SameCoercionSameEffect(s, infos, codes, logLevel, codes.baseAndTime, t, p);
    }
  }
}
