# Node execution wrapper of the process engine, in Dafny

This project models `AbstractNode`, the base class of every node in the
process engine, and in particular its `execute` wrapper. `execute` runs one
node over the chain context:

- it calls the node's `beforeLog` hook and its `isSkip` check;
- it calls `process` unless the node is skipped, then the `afterLog` hook;
- meanwhile it builds a single log line in a private buffer, left to right.

Each fragment group of the line is appended only when the configured log
level (`NodeLogLevelEnums`) reaches the group's minimum level. An
unrecognised level code falls back to BASE_AND_TIME. The last group's call
prints the buffer as one info line and clears it, unless the level is NO. If
an exception is thrown in the block, the catch blocks log an error line and
rethrow the same exception, and no info line is printed. An `Error` is caught
by neither catch block: it passes through with no line logged at all.

Modules, in dependency order:

- `Levels` (levels.dfy): the four levels, their integer codes, the
  `containsCode` fallback and the gate `thisLogLevel <= level && level != NO`.
  The codes' values are not known to the model. Only their order
  NO < BASE < BASE_AND_TIME < BASE_AND_TIME_AND_PARAMS is fixed, by a subset
  type.
- `Exceptions` (exceptions.dfy): the throwables the wrapper tells apart and
  the `businessFail` helper.
- `Decimal` (decimal.dfy): `Long.toString`, which is how the elapsed time is
  written into the line.
- `Log` (log.dfy): the buffer and the emitted lines; `buildLogInfo`. A Java
  `String` that may be null is a `JString`, and `ValueOf` renders it as
  `StringBuilder.append(Object)` and string concatenation do ("null").
- `Nodes` (node.dfy): the node, its defaults and `execute`. `Work` is the node
  code of the try block on its own, without the log. `Execute` composes
  `Start` (lines 83-90), the node code with the skip group, and then either
  `Finish` (lines 107-112) or `Fail` (the catch blocks).
- `NodeProperties` (node_properties.dfy): the success line's field layout
  per level (`SuccessFields`) and lemmas that relate `Execute` to it, to the
  fallback and to the node code.
- `DemoNodes` (demo_nodes.dfy): the two concrete nodes of the demo and tests,
  used as example `process` behaviours.

Things the model takes as inputs:

- The serialiser `JsonUtils.objectToJson` is a function parameter `toJson`.
- The stop watch's reading is a `Long` parameter `elapsed`.
- Node code (`isSkip`, `process`) is a function from the context to a `Step`.
  A `Step` is the context the call leaves behind plus either a returned value
  or a throwable, so a call may change the context and still throw.
- The hooks `beforeLog` and `afterLog` either return or throw.
- Calls the wrapper makes into code it does not own are recorded in order
  (`Call`). This lets the contracts say how often `process` and the
  serialiser run.

Behaviour of the code worth stating plainly:

- `beforeExecuteParams` comes before the skip field: the code appends the
  serialised context at line 90, before the skip group at lines 99 or 101.
  `SuccessFields` uses this order.
- Serialisation is eager: `objectToJson` runs at lines 90 and 107 before the
  gate is consulted, so it runs at every level, NO included.
  `SerialisesAtEveryLevel` states this.
- On a failure the buffer is dropped and only the error line is logged: the
  one `buildLogInfo` call that prints (line 112) is the last statement of the
  try block.
- This class stores the `failHandle` and `timeout` defaults but enforces
  neither.

## Model

| member | source | states |
|---|---|---|
| Levels.Coerce | src/main/java/cc/jinhx/process/node/AbstractNode.java:130-132 | the coerced code is always one of the four codes; a valid code is kept and an unrecognised one becomes the BASE_AND_TIME code; the result is the NO code exactly when the input is, so the fallback never silences logging |
| Levels.LevelOf | src/main/java/cc/jinhx/process/node/AbstractNode.java:130-134 | the level whose code is the coerced code; NO exactly for the NO code; BASE_AND_TIME for any unrecognised code |
| Levels.AdmitsByLevel | src/main/java/cc/jinhx/process/node/AbstractNode.java:134 | a group of minimum level m passes the gate exactly when the configured level is not NO and is at least m in the level order |
| Levels.AdmitsMonotone | src/main/java/cc/jinhx/process/node/AbstractNode.java:134 | raising a group's minimum level can only remove it from the line |
| Levels.LevelOfCode | src/main/java/cc/jinhx/process/node/AbstractNode.java:130-134 | decoding a level's own code gives back that level |
| Exceptions.BusinessFail | src/main/java/cc/jinhx/process/node/AbstractNode.java:65-67 | businessFail never returns normally; it throws a business exception with exactly the given code and message |
| Decimal.LongToString | src/main/java/cc/jinhx/process/node/AbstractNode.java:110-112 | the time text is non-empty and starts with a minus sign exactly for negative values |
| Decimal.LongToStringDenotes | src/main/java/cc/jinhx/process/node/AbstractNode.java:110-112 | the time text is canonical decimal and reads back as the same number |
| Log.ValueOf | src/main/java/cc/jinhx/process/node/AbstractNode.java:83-89 | a non-null string is written as itself and a null one as "null" |
| Log.BuildLogInfo | src/main/java/cc/jinhx/process/node/AbstractNode.java:129-143 | earlier lines are kept; one line, an info line, is added exactly when printing with a code other than the NO code, and the buffer is then empty; otherwise nothing is emitted and the old buffer is a prefix of the new one |
| Log.GatedText | src/main/java/cc/jinhx/process/node/AbstractNode.java:134-136 | after the gate, the buffer's text is the old text followed by the group's text when admitted, and the old text otherwise |
| Log.FlushKeepsText | src/main/java/cc/jinhx/process/node/AbstractNode.java:138-142 | turning the buffer into an info line and clearing it loses and reorders no text |
| Log.BuildLogInfoConservesText | src/main/java/cc/jinhx/process/node/AbstractNode.java:129-143 | text is conserved: the emitted info text followed by the buffer grows by exactly the group when the gate admits it and not at all otherwise, whether or not the call prints |
| Log.AppendExactlyWhenAdmitted | src/main/java/cc/jinhx/process/node/AbstractNode.java:134-136 | without printing, the buffer becomes buffer + group when admitted, stays unchanged when not, and no line is emitted |
| Log.FlushEmitsBuffer | src/main/java/cc/jinhx/process/node/AbstractNode.java:134-142 | printing at a level other than NO emits the buffer, followed by the admitted group, as one info line and clears the buffer; at NO the sink is unchanged |
| Log.SameCoercionSameEffect | src/main/java/cc/jinhx/process/node/AbstractNode.java:130-142 | buildLogInfo depends on the configured code only through the coerced code |
| Nodes.Work | src/main/java/cc/jinhx/process/node/AbstractNode.java:96-105 | process is called exactly when beforeLog returned and isSkip returned false; the block completes exactly when no call threw, with isSkip's answer and the context left by process, or by isSkip when skipped |
| Nodes.WorkFollowsBody | src/main/java/cc/jinhx/process/node/AbstractNode.java:96-105 | the calls are a prefix of beforeLog, isSkip, process unless skipped, afterLog, and all of it when the block completes; afterLog is reached only after isSkip and process returned |
| Nodes.ProcessAtMostOnce | src/main/java/cc/jinhx/process/node/AbstractNode.java:98-103 | process is never called twice |
| Nodes.Start | src/main/java/cc/jinhx/process/node/AbstractNode.java:83-90 | the buffer starts with "nodeLog " and the context's log string, then holds the identity group unless the level is NO, then the before-snapshot group only at BASE_AND_TIME_AND_PARAMS; the serialiser has been called once and nothing is emitted |
| Nodes.LogSkip | src/main/java/cc/jinhx/process/node/AbstractNode.java:98-101 | once isSkip has returned, " skip=" and "true" or "false" are appended unless the level is NO; nothing is appended when beforeLog or isSkip threw |
| Nodes.Finish | src/main/java/cc/jinhx/process/node/AbstractNode.java:107-112 | unless the level is NO, the buffer, then the after-snapshot group (only at BASE_AND_TIME_AND_PARAMS), then the time group (not at BASE), is emitted as one info line and the buffer is empty; at NO nothing changes; the second serialisation is recorded |
| Nodes.Fail | src/main/java/cc/jinhx/process/node/AbstractNode.java:113-119 | the catch blocks add only the failure's lines and rethrow exactly the caught throwable |
| Nodes.Execute | src/main/java/cc/jinhx/process/node/AbstractNode.java:82-120 | execute completes exactly when the node code completes; on success it emits no line at NO and exactly one info line otherwise, and leaves the buffer empty; on failure it rethrows the first throwable of the node code unchanged and its only lines are the failure lines: one business-fail line, one generic-fail line, or none for an Error |
| Nodes.ExecuteCalls | src/main/java/cc/jinhx/process/node/AbstractNode.java:89-112 | a successful execute calls serialiser, beforeLog, isSkip, process unless skipped, afterLog, serialiser; a failed one stops after the throwing call and never serialises the after-state |
| NodeProperties.GroupsMakeFields | src/main/java/cc/jinhx/process/node/AbstractNode.java:89-112 | the groups in the order the code appends them make up the success line's fields (`SuccessFields`) at each level other than NO |
| NodeProperties.SuccessLineIsBuffer | src/main/java/cc/jinhx/process/node/AbstractNode.java:83-112 | a successful execute emits the opening buffer, the skip group and the closing groups as its one line, and leaves the context the node code left |
| NodeProperties.SuccessLineLayout | src/main/java/cc/jinhx/process/node/AbstractNode.java:83-112 | the success line is exactly `SuccessFields` for the coerced level, in order: prefix; " execute success", chain name, node name; the before snapshot (highest level only); the skip field; the after snapshot (highest level only); the time (not at BASE); no line at NO |
| NodeProperties.BaseLineHasNoTime | src/main/java/cc/jinhx/process/node/AbstractNode.java:112 | at BASE the line is printed without a time field: it does not depend on the elapsed time or on the serialiser |
| NodeProperties.SilentAtNo | src/main/java/cc/jinhx/process/node/AbstractNode.java:134-142 | at NO a successful execute emits nothing and appends no fragment after the prefix |
| NodeProperties.SerialisesAtEveryLevel | src/main/java/cc/jinhx/process/node/AbstractNode.java:90-107 | a successful execute calls the serialiser exactly twice, first and last, whatever the level |
| NodeProperties.SuccessCallsSerialiseTwice | src/main/java/cc/jinhx/process/node/AbstractNode.java:90-107 | the successful call sequence holds the serialiser exactly twice, at both ends |
| NodeProperties.SkipDecidesProcess | src/main/java/cc/jinhx/process/node/AbstractNode.java:98-103 | when isSkip returns true process is called zero times, and when it returns false exactly once |
| NodeProperties.FailureRethrownUnchanged | src/main/java/cc/jinhx/process/node/AbstractNode.java:98-119 | when isSkip or process throws, execute rethrows that same throwable, never reaches afterLog, logs no info line at any level, and logs one error line unless the throwable is an Error |
| NodeProperties.BusinessFailSurfaces | src/main/java/cc/jinhx/process/node/AbstractNode.java:65-67 | a process that calls businessFail(code, msg) makes execute log one "execute business fail" error call, with the node name and that exception's stack trace as its arguments, and rethrow it with the same code and message |
| NodeProperties.DefaultNodeRunsProcess | src/main/java/cc/jinhx/process/node/AbstractNode.java:43-48 | a node overriding only process keeps the INTERRUPT fail-handle code and the COMMONLY timeout code, never skips, calls process exactly once, and succeeds exactly when process returns |
| NodeProperties.UnknownLevelActsAsBaseAndTime | src/main/java/cc/jinhx/process/node/AbstractNode.java:130-132 | execute with an unrecognised level code gives exactly what it gives with the BASE_AND_TIME code |
| DemoNodes.GetAByReqFillsA | easytool-process/src/test/java/cc/jinhx/easytool/process/node/TestGetAByReqNode.java:26-31 | the node succeeds; with request "req" only `a` changes, to the service value; otherwise the context is unchanged |
| DemoNodes.GetC2ByBFailsOnDivision | process-demo/src/main/java/cc/jinhx/demo/node/TestGetC2ByBNode.java:30-34 | when `b` is not "B" or `c1` is not "C1", the division by zero is rethrown unchanged with one "execute fail" error call, whose arguments are the node name and that exception's stack trace, and afterLog is never called |
| DemoNodes.GetC2ByBFillsC2 | process-demo/src/main/java/cc/jinhx/demo/node/TestGetC2ByBNode.java:30-31 | when `b` is "B" and `c1` is "C1", the node succeeds and only `c2` changes, to the service value followed by "2" |

## Left out

- The logger (slf4j) is represented only by the emitted lines. An error line
  records the format and the arguments handed to `log.error`; the logger's
  `{}` substitution is not modelled. The context's log string is part of that
  format, so any `{}` inside it is a placeholder too, and the model does not
  say what text results. The text of `ExceptionUtils.getStackTrace` is opaque:
  the argument keeps the exception itself.
- `JsonUtils.objectToJson` is a parameter. Whether it can throw is not
  modelled; it is treated as total.
- `StopWatch` is replaced by the `elapsed` input. The model has no timing
  arithmetic.
- The values of the `NodeLogLevelEnums`, `NodeFailHandleEnums` and
  `NodeTimeoutEnums` codes are not part of this model. The log codes are
  constrained only by their order. The INTERRUPT and COMMONLY codes are
  parameters of `NewNode`.
- A null `logLevel` is not modelled, because `containsCode`'s handling of
  null is not part of this model. The level is always an integer.
- `getContextInfo` (lines 55-57) is a plain getter. The model reads
  `ctx.info` directly.
- Overridden `beforeLog`/`afterLog` hooks that write their own log lines are
  not modelled. A hook either returns or throws.
- Chain and topology dispatching, the failure policy, timeout enforcement,
  the `onBusinessFail`/`onTimeoutFail`/`onUnknowFail` hooks and concurrency
  are not implemented by this class. The hooks overridden in
  TestGetAByReqNode.java belong to a different node API.
- The demo nodes' `Thread.sleep`, the `InterruptedException` it may throw
  and `System.out` output are left out. So is the Spring-injected
  `TestService`: its values are parameters.
