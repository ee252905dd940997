/** The `process` bodies of two concrete nodes from the repository's demo
    and tests, used as example node code run through this model of
    `execute`: one fills `a` from a service when the request is "req", the
    other fills `c2` or fails on an integer division by zero. In the
    repository both classes extend other node base classes (a topology node
    API and `cc.jinhx.process.AbstractNode`), not the class modelled here;
    only their `process` logic is taken. The services they call are given as
    values. */
module DemoNodes {
  import opened Levels
  import opened Exceptions
  import opened Decimal
  import opened Log
  import opened Nodes
  import opened NodeProperties

  /** The demo payload: the request and the values the nodes fill in. */
  datatype TestContext = TestContext(req: JString, a: JString, b: JString, c1: JString, c2: JString)

  /** What `1/0` throws in Java. */
  const DIVISION_BY_ZERO := OtherException("java.lang.ArithmeticException")

  /** TestGetAByReqNode.process: `a` takes the service's value exactly when
      the request equals "req" (a null request does not). */
  function GetAByReqProcess(serviceA: JString): ChainContext<TestContext> -> Step<TestContext, ()>
  {
    (c: ChainContext<TestContext>) =>
      if c.info.req == Str("req") then Step(c.(info := c.info.(a := serviceA)), Returned(()))
      else Step(c, Returned(()))
  }

  /** TestGetC2ByBNode.process: `c2` becomes the service's C value followed by
      "2" when `b` is "B" and `c1` is "C1"; otherwise the division by zero
      throws, after no change to the context. */
  function GetC2ByBProcess(serviceC: JString): ChainContext<TestContext> -> Step<TestContext, ()>
  {
    (c: ChainContext<TestContext>) =>
      if c.info.b == Str("B") && c.info.c1 == Str("C1")
      then Step(c.(info := c.info.(c2 := Str(ValueOf(serviceC) + "2"))), Returned(()))
      else Step(c, Threw(DIVISION_BY_ZERO))
  }

  /** With request "req" the node succeeds and fills `a` with the service's
      value, leaving the other fields alone; with any other request it
      succeeds and changes nothing. */
  lemma GetAByReqFillsA(name: string, interruptCode: int, commonlyCode: int, serviceA: JString,
                        codes: LevelCodes, toJson: ChainContext<TestContext> -> JString,
                        ctx: ChainContext<TestContext>, logLevel: int, nodeChainName: JString, elapsed: Long)
    ensures var node := NewNode(name, interruptCode, commonlyCode, GetAByReqProcess(serviceA));
      var e := Execute(node, codes, toJson, ctx, logLevel, nodeChainName, elapsed);
      && e.outcome.Returned?
      && (ctx.info.req == Str("req") ==> e.ctx == ctx.(info := ctx.info.(a := serviceA)))
      && (ctx.info.req != Str("req") ==> e.ctx == ctx)
  {
    DefaultNodeRunsProcess(name, interruptCode, commonlyCode, GetAByReqProcess(serviceA),
                           codes, toJson, ctx, logLevel, nodeChainName, elapsed);
  }

  /** When `b` is not "B" or `c1` is not "C1", the division by zero escapes
      execute unchanged: one "execute fail" error line, no info line at any
      level, afterLog never called. */
  lemma GetC2ByBFailsOnDivision(name: string, interruptCode: int, commonlyCode: int, serviceC: JString,
                                codes: LevelCodes, toJson: ChainContext<TestContext> -> JString,
                                ctx: ChainContext<TestContext>, logLevel: int, nodeChainName: JString, elapsed: Long)
    requires !(ctx.info.b == Str("B") && ctx.info.c1 == Str("C1"))
    ensures var node := NewNode(name, interruptCode, commonlyCode, GetC2ByBProcess(serviceC));
      var e := Execute(node, codes, toJson, ctx, logLevel, nodeChainName, elapsed);
      && e.outcome == Threw(DIVISION_BY_ZERO)
      && e.sink.emitted == [ErrorLine(NODE_LOG + ValueOf(ctx.logStr) + " execute fail nodeName={} msg={}",
                                      [Text(name), StackTrace(DIVISION_BY_ZERO)])]
      && AfterLog !in e.calls
  {
    var node := NewNode(name, interruptCode, commonlyCode, GetC2ByBProcess(serviceC));
    assert node.isSkip(ctx) == Step(ctx, Returned(false));
    FailureRethrownUnchanged(node, codes, toJson, ctx, logLevel, nodeChainName, elapsed, DIVISION_BY_ZERO);
  }

  /** When `b` is "B" and `c1` is "C1", the node succeeds and `c2` is the
      service's C value followed by "2" ("null2" for a null value). */
  lemma GetC2ByBFillsC2(name: string, interruptCode: int, commonlyCode: int, serviceC: JString,
                        codes: LevelCodes, toJson: ChainContext<TestContext> -> JString,
                        ctx: ChainContext<TestContext>, logLevel: int, nodeChainName: JString, elapsed: Long)
    requires ctx.info.b == Str("B") && ctx.info.c1 == Str("C1")
    ensures var node := NewNode(name, interruptCode, commonlyCode, GetC2ByBProcess(serviceC));
      var e := Execute(node, codes, toJson, ctx, logLevel, nodeChainName, elapsed);
      && e.outcome.Returned?
      && e.ctx.info.c2 == Str(ValueOf(serviceC) + "2")
      && e.ctx.info.(c2 := ctx.info.c2) == ctx.info
  {
    DefaultNodeRunsProcess(name, interruptCode, commonlyCode, GetC2ByBProcess(serviceC),
                           codes, toJson, ctx, logLevel, nodeChainName, elapsed);
  }
}
