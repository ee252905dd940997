/** The node log levels (NodeLogLevelEnums) and the gate that decides, for a
    configured level code, whether a log fragment of a given minimum level is
    appended to a node's log line. */
module Levels {

  /** The four verbosity levels, least detail first. */
  datatype Level = NO | BASE | BASE_AND_TIME | BASE_AND_TIME_AND_PARAMS

  /** Position of a level in the order of increasing detail. */
  function Rank(l: Level): nat
  {
    match l
    case NO => 0
    case BASE => 1
    case BASE_AND_TIME => 2
    case BASE_AND_TIME_AND_PARAMS => 3
  }

  /** The integer codes the enum gives its four levels. Their values are not
      part of this model; the gate compares codes with `<=`, so only their
      order matters, and that order is fixed by the subset type below. */
  datatype Codes = Codes(no: int, base: int, baseAndTime: int, baseAndTimeAndParams: int)

  type LevelCodes = c: Codes | c.no < c.base < c.baseAndTime < c.baseAndTimeAndParams
    witness Codes(0, 1, 2, 3)

  /** `getCode()` of a level. */
  function Code(codes: LevelCodes, l: Level): int
  {
    match l
    case NO => codes.no
    case BASE => codes.base
    case BASE_AND_TIME => codes.baseAndTime
    case BASE_AND_TIME_AND_PARAMS => codes.baseAndTimeAndParams
  }

  /** `containsCode`: the code is one of the enum's four codes. */
  predicate ContainsCode(codes: LevelCodes, code: int)
  {
    code == codes.no || code == codes.base || code == codes.baseAndTime || code == codes.baseAndTimeAndParams
  }

  /** The configured code after the fallback: an unrecognised code is replaced
      by the code of BASE_AND_TIME. The fallback never turns logging off. */
  function Coerce(codes: LevelCodes, logLevel: int): (r: int)
    ensures ContainsCode(codes, r)
    ensures ContainsCode(codes, logLevel) ==> r == logLevel
    ensures !ContainsCode(codes, logLevel) ==> r == codes.baseAndTime
    ensures r == codes.no <==> logLevel == codes.no
  {
    if ContainsCode(codes, logLevel) then logLevel else codes.baseAndTime
  }

  /** The level a configured code stands for, after the fallback. */
  function LevelOf(codes: LevelCodes, logLevel: int): (l: Level)
    ensures Code(codes, l) == Coerce(codes, logLevel)
    ensures l == NO <==> logLevel == codes.no
    ensures !ContainsCode(codes, logLevel) ==> l == BASE_AND_TIME
  {
    var c := Coerce(codes, logLevel);
    if c == codes.no then NO
    else if c == codes.base then BASE
    else if c == codes.baseAndTime then BASE_AND_TIME
    else BASE_AND_TIME_AND_PARAMS
  }

  /** The gate of buildLogInfo: a fragment whose minimum level code is
      `thisLogLevel` is appended when that code is at most the coerced
      configured code and the coerced code is not the code of NO. */
  predicate Admits(codes: LevelCodes, logLevel: int, thisLogLevel: int)
  {
    var level := Coerce(codes, logLevel);
    thisLogLevel <= level && level != codes.no
  }

  /** Decoding a level's own code gives that level back. */
  lemma LevelOfCode(codes: LevelCodes, l: Level)
    ensures LevelOf(codes, Code(codes, l)) == l
  {
  }

  /** Codes are ordered exactly as the levels they stand for. */
  lemma CodeOrder(codes: LevelCodes, a: Level, b: Level)
    ensures Code(codes, a) <= Code(codes, b) <==> Rank(a) <= Rank(b)
  {
  }

  /** The gate in terms of levels: a fragment of minimum level `m` is appended
      exactly when the configured level is not NO and is at least `m`. */
  lemma AdmitsByLevel(codes: LevelCodes, logLevel: int, m: Level)
    ensures Admits(codes, logLevel, Code(codes, m))
        <==> LevelOf(codes, logLevel) != NO && Rank(m) <= Rank(LevelOf(codes, logLevel))
  {
    var l := LevelOf(codes, logLevel);
    CodeOrder(codes, m, l);
  }

  /** Raising a fragment's minimum level can only remove it from the line. */
  lemma AdmitsMonotone(codes: LevelCodes, logLevel: int, lo: int, hi: int)
    requires lo <= hi
    ensures Admits(codes, logLevel, hi) ==> Admits(codes, logLevel, lo)
  {
  }
}
