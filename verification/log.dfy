/** The per-execution log buffer of a node and the lines it hands to the
    logger: buildLogInfo appends fragment groups that pass the level gate and,
    when asked to print, emits the whole buffer as one info line and clears it. */
module Log {
  import opened Levels
  import opened Exceptions

  /** A Java `String` reference, which may be null. */
  datatype JString = Null | Str(value: string)

  /** `String.valueOf`: the text that string concatenation and
      `StringBuilder.append(Object)` write for a reference. */
  function ValueOf(j: JString): (t: string)
    ensures j.Str? ==> t == j.value
    ensures j.Null? ==> t == "null"
  {
    match j
    case Null => "null"
    case Str(v) => v
  }

  /** An argument of a parameterised logger call: a plain string, or the
      stack trace of a throwable, whose text is not part of this model. */
  datatype LogArg = Text(s: string) | StackTrace(cause: Throwable)

  /** A line handed to the logger. An info line is the buffer's text, logged
      as it stands; an error line is a parameterised call: a format whose `{}`
      placeholders the logger fills from `args` in order. */
  datatype Line = Info(text: string) | ErrorLine(format: string, args: seq<LogArg>)

  /** The buffer (the pieces appended so far, in order) and the lines emitted. */
  datatype Sink = Sink(buf: seq<string>, emitted: seq<Line>)

  /** The text of a sequence of pieces, i.e. what the buffer's `toString` gives. */
  function Concat(parts: seq<string>): string
  {
    if |parts| == 0 then "" else Concat(parts[..|parts| - 1]) + parts[|parts| - 1]
  }

  /** The text of the info lines among `lines`, in order. */
  function InfoText(lines: seq<Line>): string
  {
    if |lines| == 0 then ""
    else InfoText(lines[..|lines| - 1]) + (if lines[|lines| - 1].Info? then lines[|lines| - 1].text else "")
  }

  /** Everything written to the sink so far: the info lines already emitted,
      then what is still pending in the buffer. */
  function Written(s: Sink): string
  {
    InfoText(s.emitted) + Concat(s.buf)
  }

  lemma {:induction false} ConcatAppend(a: seq<string>, b: seq<string>)
    ensures Concat(a + b) == Concat(a) + Concat(b)
    decreases |b|
  {
    if |b| == 0 {
      assert a + b == a;
    } else {
      var b' := b[..|b| - 1];
      assert (a + b)[..|a + b| - 1] == a + b';
      ConcatAppend(a, b');
    }
  }

  lemma AppendAssociates(a: string, b: string, c: string)
    ensures a + (b + c) == (a + b) + c
  {
  }

  lemma InfoTextAppend(lines: seq<Line>, text: string)
    ensures InfoText(lines + [Info(text)]) == InfoText(lines) + text
  {
    assert (lines + [Info(text)])[..|lines|] == lines;
  }

  /** The buffer after the level gate: the group is appended exactly when
      the gate admits it. */
  function Gated(buf: seq<string>, infos: seq<string>, codes: LevelCodes, logLevel: int,
                 thisLogLevel: int): seq<string>
  {
    if Admits(codes, logLevel, thisLogLevel) then buf + infos else buf
  }

  /** The gated buffer's text is the old text followed by the group's text
      when admitted. */
  lemma GatedText(buf: seq<string>, infos: seq<string>, codes: LevelCodes, logLevel: int,
                  thisLogLevel: int)
    ensures Concat(Gated(buf, infos, codes, logLevel, thisLogLevel))
         == Concat(buf) + (if Admits(codes, logLevel, thisLogLevel) then Concat(infos) else "")
  {
    if Admits(codes, logLevel, thisLogLevel) {
      ConcatAppend(buf, infos);
    } else {
      assert Concat(buf) + "" == Concat(buf);
    }
  }

  /** Turning the buffer into an info line loses and reorders nothing. */
  lemma FlushKeepsText(buf: seq<string>, emitted: seq<Line>)
    ensures Written(Sink([], emitted + [Info(Concat(buf))])) == Written(Sink(buf, emitted))
  {
    InfoTextAppend(emitted, Concat(buf));
    assert Concat([]) == "";
  }

  /** `buildLogInfo`: the fragment group `infos` is appended when the gate
      admits `thisLogLevel` for the configured `logLevel`; then, if
      `shouldPrint` (the source's `print` flag) is set and the coerced level
      is not NO, the buffer becomes one info line and is cleared. Earlier
      lines are kept and at most one line, an info line, is added; otherwise
      the buffer only grows at its end. */
  function BuildLogInfo(s: Sink, infos: seq<string>, codes: LevelCodes, logLevel: int,
                        thisLogLevel: int, shouldPrint: bool): (r: Sink)
    ensures |r.emitted| == |s.emitted| + (if shouldPrint && logLevel != codes.no then 1 else 0)
    ensures r.emitted[..|s.emitted|] == s.emitted
    ensures |r.emitted| > |s.emitted| ==> r.emitted[|s.emitted|].Info?
    ensures shouldPrint && logLevel != codes.no ==> r.buf == []
    ensures !(shouldPrint && logLevel != codes.no) ==> |s.buf| <= |r.buf| && r.buf[..|s.buf|] == s.buf
  {
    var buf := Gated(s.buf, infos, codes, logLevel, thisLogLevel);
    if shouldPrint && Coerce(codes, logLevel) != codes.no then
      Sink([], s.emitted + [Info(Concat(buf))])
    else
      Sink(buf, s.emitted)
  }

  /** No text is lost or reordered: the info text emitted so far followed by
      the buffer grows by exactly the group when the gate admits it, and not
      at all otherwise, whether or not the call prints. */
  lemma BuildLogInfoConservesText(s: Sink, infos: seq<string>, codes: LevelCodes, logLevel: int,
                                  thisLogLevel: int, shouldPrint: bool)
    ensures Written(BuildLogInfo(s, infos, codes, logLevel, thisLogLevel, shouldPrint))
         == Written(s) + (if Admits(codes, logLevel, thisLogLevel) then Concat(infos) else "")
  {
    var buf := Gated(s.buf, infos, codes, logLevel, thisLogLevel);
    var x := if Admits(codes, logLevel, thisLogLevel) then Concat(infos) else "";
    FlushKeepsText(buf, s.emitted);
    GatedText(s.buf, infos, codes, logLevel, thisLogLevel);
    AppendAssociates(InfoText(s.emitted), Concat(s.buf), x);
  }

  /** The gate decides alone whether a group is appended: without printing, the
      buffer grows by exactly the group when admitted and is unchanged
      otherwise, and no line is emitted. */
  lemma AppendExactlyWhenAdmitted(s: Sink, infos: seq<string>, codes: LevelCodes, logLevel: int, thisLogLevel: int)
    ensures var r := BuildLogInfo(s, infos, codes, logLevel, thisLogLevel, false);
      && r.emitted == s.emitted
      && (Admits(codes, logLevel, thisLogLevel) ==> r.buf == s.buf + infos)
      && (!Admits(codes, logLevel, thisLogLevel) ==> r.buf == s.buf)
  {
  }

  /** Printing at a level other than NO emits exactly the buffer, with the
      admitted group at its end, as one info line and leaves the buffer empty;
      at NO nothing is emitted and nothing is appended. */
  lemma FlushEmitsBuffer(s: Sink, infos: seq<string>, codes: LevelCodes, logLevel: int, thisLogLevel: int)
    ensures var r := BuildLogInfo(s, infos, codes, logLevel, thisLogLevel, true);
      && (LevelOf(codes, logLevel) != NO ==>
            && r.buf == []
            && r.emitted == s.emitted
               + [Info(Concat(s.buf) + (if Admits(codes, logLevel, thisLogLevel) then Concat(infos) else ""))])
      && (LevelOf(codes, logLevel) == NO ==> r == s)
  {
    if Admits(codes, logLevel, thisLogLevel) {
      ConcatAppend(s.buf, infos);
    } else {
      assert Concat(s.buf) + "" == Concat(s.buf);
    }
  }

  /** buildLogInfo sees the configured code only through the fallback: two
      codes that coerce alike build and print alike. */
  lemma SameCoercionSameEffect(s: Sink, infos: seq<string>, codes: LevelCodes, a: int, b: int,
                               thisLogLevel: int, shouldPrint: bool)
    requires Coerce(codes, a) == Coerce(codes, b)
    ensures BuildLogInfo(s, infos, codes, a, thisLogLevel, shouldPrint)
         == BuildLogInfo(s, infos, codes, b, thisLogLevel, shouldPrint)
  {
  }
}
