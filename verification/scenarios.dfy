/** The scenarios of map_test.go replayed on the model: each lemma states
    the exact text the failure sink receives, written in chunks of the
    expected output. */
module Scenarios {
  import opened Wrappers
  import opened GoMaps
  import opened StringOrder
  import opened Render
  import opened Reporter
  import opened Chain
  import C = Comparator

  // ---- rendering the maps the tests use ---------------------------------

  lemma QuoteWord(c: char)
    requires c != '"' && c != '\\' && c != '\n'
    ensures Quote([c]) == ['"', c, '"']
  {
    assert Escape([c]) == EscapeChar(c) + Escape([]);
  }

  lemma SmallInts()
    ensures IntToString(0) == "0" && IntToString(1) == "1" && IntToString(2) == "2"
    ensures IntToString(3) == "3" && IntToString(4) == "4"
  {
    assert NatToString(0) == [DigitChar(0)];
  }

  lemma RenderSingle(k: string, v: int, w: string)
    requires Member(k, v) == w
    ensures RenderMap(Some(map[k := v])) == "{" + w + "}"
  {
    RenderAscending(map[k := v], [k]);
  }

  /** Two members, the smaller key first. */
  lemma MembersPair(k1: string, v1: int, k2: string, v2: int)
    requires k1 != k2
    ensures Members([k1, k2], map[k1 := v1, k2 := v2]) == Member(k1, v1) + "," + Member(k2, v2)
  {
    var m := map[k1 := v1, k2 := v2];
    assert [k1, k2][1..] == [k2];
    assert m[k1] == v1 && m[k2] == v2;
  }

  lemma Enclose(w1: string, w2: string)
    ensures "{" + (w1 + "," + w2) + "}" == "{" + w1 + "," + w2 + "}"
  {
  }

  lemma RenderPair(k1: string, v1: int, k2: string, v2: int, w1: string, w2: string)
    requires Less(k1, k2) && Member(k1, v1) == w1 && Member(k2, v2) == w2
    ensures RenderMap(Some(map[k1 := v1, k2 := v2])) == "{" + w1 + "," + w2 + "}"
  {
    LessIrreflexive(k1);
    var m, ks := map[k1 := v1, k2 := v2], [k1, k2];
    assert StrictlyIncreasing(ks) by {
      forall i, j | 0 <= i < j < |ks|
        ensures Less(ks[i], ks[j])
      {
        assert i == 0 && j == 1;
      }
    }
    assert forall k :: k in ks <==> k in m;
    MembersPair(k1, v1, k2, v2);
    RenderAscending(m, ks);
    Enclose(w1, w2);
  }

  /** A one-letter key with a small value renders as `"k":v`. */
  lemma MemberWord(c: char, v: int, w: string)
    requires c != '"' && c != '\\' && c != '\n'
    requires w == ['"', c, '"', ':'] + IntToString(v)
    ensures Member([c], v) == w
  {
    QuoteWord(c);
  }

  const A1: GoMap := Some(map["a" := 1])
  const A2: GoMap := Some(map["a" := 2])
  const B2: GoMap := Some(map["b" := 2])
  const C3: GoMap := Some(map["c" := 3])
  const AB: GoMap := Some(map["a" := 1, "b" := 2])
  const BC: GoMap := Some(map["b" := 2, "c" := 3])
  const BA: GoMap := Some(map["b" := 3, "a" := 4])
  const XY: GoMap := Some(map["x" := 1, "y" := 2])

  lemma RenderA1()
    ensures RenderMap(A1) == "{" + "\"a\":1" + "}"
  {
    SmallInts();
    MemberWord('a', 1, "\"a\":1");
    RenderSingle("a", 1, "\"a\":1");
  }

  lemma RenderA2()
    ensures RenderMap(A2) == "{" + "\"a\":2" + "}"
  {
    SmallInts();
    MemberWord('a', 2, "\"a\":2");
    RenderSingle("a", 2, "\"a\":2");
  }

  lemma RenderB2()
    ensures RenderMap(B2) == "{" + "\"b\":2" + "}"
  {
    SmallInts();
    MemberWord('b', 2, "\"b\":2");
    RenderSingle("b", 2, "\"b\":2");
  }

  lemma RenderC3()
    ensures RenderMap(C3) == "{" + "\"c\":3" + "}"
  {
    SmallInts();
    MemberWord('c', 3, "\"c\":3");
    RenderSingle("c", 3, "\"c\":3");
  }

  lemma RenderAB()
    ensures RenderMap(AB) == "{" + "\"a\":1" + "," + "\"b\":2" + "}"
  {
    SmallInts();
    MemberWord('a', 1, "\"a\":1");
    MemberWord('b', 2, "\"b\":2");
    RenderPair("a", 1, "b", 2, "\"a\":1", "\"b\":2");
  }

  lemma RenderBC()
    ensures RenderMap(BC) == "{" + "\"b\":2" + "," + "\"c\":3" + "}"
  {
    SmallInts();
    MemberWord('b', 2, "\"b\":2");
    MemberWord('c', 3, "\"c\":3");
    RenderPair("b", 2, "c", 3, "\"b\":2", "\"c\":3");
  }

  lemma EscapePlain(s: string)
    requires forall i :: 0 <= i < |s| ==> s[i] != '"' && s[i] != '\\' && s[i] != '\n'
    ensures Escape(s) == s
  {
    if |s| > 0 {
      EscapePlain(s[1..]);
      assert s == [s[0]] + s[1..];
    }
  }

  lemma IndexIsZero()
    ensures Quote("index is 0") == "\"" + "index is 0" + "\""
  {
    EscapePlain("index is 0");
  }

  lemma OneEntry(k: string, v: int)
    ensures map[k := v].Keys == {k} && map[k := v].Values == {v}
  {
  }

  lemma TwoEntries(k1: string, v1: int, k2: string, v2: int)
    requires k1 != k2
    ensures map[k1 := v1, k2 := v2].Keys == {k1, k2} && map[k1 := v1, k2 := v2].Values == {v1, v2}
  {
    var m := map[k1 := v1, k2 := v2];
    assert m[k1] == v1 && m[k2] == v2;
  }

  lemma DifferAtOne(k: string, v1: int, v2: int)
    requires v1 != v2
    ensures C.DifferingKeys(map[k := v1], map[k := v2]) == {k}
  {
  }

  lemma ValuesDifferWitness(a: GoMap, e: GoMap, v: int)
    requires |Entries(a).Keys| == |Entries(e).Keys| && C.Count(Entries(a), v) != C.Count(Entries(e), v)
    ensures C.HasSameValues(a, e) == Some(C.ValuesDiffer)
  {
  }

  lemma CheckEqual(a: GoMap, e: GoMap, op: Op)
    requires op == Equal(e)
    ensures Check(a, op) == Against(C.EqualTo, C.Equal(a, e), e)
  {
  }

  lemma CheckSubsetOf(a: GoMap, e: GoMap, op: Op)
    requires op == SubsetOf(e)
    ensures Check(a, op) == Against(C.Subset, C.SubsetOf(a, e), e)
  {
  }

  lemma CheckSupersetOf(a: GoMap, e: GoMap, op: Op)
    requires op == SupersetOf(e)
    ensures Check(a, op) == Against(C.Superset, C.SupersetOf(a, e), e)
  {
  }

  lemma CheckHasSameKeys(a: GoMap, e: GoMap, op: Op)
    requires op == HasSameKeys(e)
    ensures Check(a, op) == Against(C.SameKeys, C.HasSameKeys(a, e), e)
  {
  }

  lemma CheckHasSameValues(a: GoMap, e: GoMap, op: Op)
    requires op == HasSameValues(e)
    ensures Check(a, op) == Against(C.SameValues, C.HasSameValues(a, e), e)
  {
  }

  /** A map whose every entry appears in `e` passes `SubsetOf(e)`. */
  lemma HoldsAsSubset(a: GoMap, e: GoMap)
    requires forall k :: k in Entries(a) ==> k in Entries(e) && Entries(a)[k] == Entries(e)[k]
    ensures Check(a, SubsetOf(e)) == None
  {
    CheckSubsetOf(a, e, SubsetOf(e));
  }

  /** A map holding every entry of `e` passes `SupersetOf(e)`. */
  lemma HoldsAsSuperset(a: GoMap, e: GoMap)
    requires forall k :: k in Entries(e) ==> k in Entries(a) && Entries(e)[k] == Entries(a)[k]
    ensures Check(a, SupersetOf(e)) == None
  {
    CheckSupersetOf(a, e, SupersetOf(e));
  }

  /** A failing check on a chain with an empty log leaves exactly one report. */
  lemma Emits(c: Assertion, mm: C.Mismatch, msg: Option<string>)
    requires c.log == []
    ensures Record(c, Some(mm), msg).log == [Report(c.severity, JoinLines(DiagnosticLines(c.severity, mm, c.actual, msg)))]
  {
    assert |Record(c, Some(mm), msg).log| == 1;
  }

  // The lines of a report, built from their pieces.

  lemma LinesPlain(sev: Severity, mm: C.Mismatch, g: GoMap, reason: string, actual: string)
    requires !mm.Unrelated? && Reason(mm) == reason && RenderMap(g) == actual
    ensures DiagnosticLines(sev, mm, g, None) == [Tag(sev) + "# Assertion failed: " + reason, "  actual: " + actual]
  {
  }

  lemma LinesMessage(sev: Severity, mm: C.Mismatch, g: GoMap, msg: string, reason: string, actual: string, message: string)
    requires !mm.Unrelated? && Reason(mm) == reason && RenderMap(g) == actual && Quote(msg) == message
    ensures DiagnosticLines(sev, mm, g, Some(msg)) ==
            [Tag(sev) + "# Assertion failed: " + reason, "  actual: " + actual, " message: " + message]
  {
  }

  lemma LinesExpected(sev: Severity, mm: C.Mismatch, g: GoMap, reason: string, actual: string, expected: string)
    requires mm.Unrelated? && Reason(mm) == reason && RenderMap(g) == actual && RenderMap(mm.expected) == expected
    ensures DiagnosticLines(sev, mm, g, None) ==
            [Tag(sev) + "# Assertion failed: " + reason, "  actual: " + actual, "expected: " + expected]
  {
  }

  lemma LinesExpectedMessage(sev: Severity, mm: C.Mismatch, g: GoMap, msg: string,
                             reason: string, actual: string, expected: string, message: string)
    requires mm.Unrelated? && Reason(mm) == reason && RenderMap(g) == actual && RenderMap(mm.expected) == expected
    requires Quote(msg) == message
    ensures DiagnosticLines(sev, mm, g, Some(msg)) ==
            [Tag(sev) + "# Assertion failed: " + reason, "  actual: " + actual, "expected: " + expected,
             " message: " + message]
  {
  }

  // The report a failing check leaves on a fresh chain, built from the
  // pieces of its text: plain, with a message, with the expected map, or
  // with both.

  lemma ReportsPlain(c: Assertion, mm: C.Mismatch, reason: string, actual: string)
    requires c.log == [] && !mm.Unrelated? && Reason(mm) == reason && RenderMap(c.actual) == actual
    ensures Record(c, Some(mm), None).log ==
            [Report(c.severity, JoinLines([Tag(c.severity) + "# Assertion failed: " + reason, "  actual: " + actual]))]
  {
    Emits(c, mm, None);
    LinesPlain(c.severity, mm, c.actual, reason, actual);
  }

  lemma ReportsMessage(c: Assertion, mm: C.Mismatch, msg: string, reason: string, actual: string, message: string)
    requires c.log == [] && !mm.Unrelated? && Reason(mm) == reason && RenderMap(c.actual) == actual
    requires Quote(msg) == message
    ensures Record(c, Some(mm), Some(msg)).log ==
            [Report(c.severity, JoinLines([Tag(c.severity) + "# Assertion failed: " + reason, "  actual: " + actual,
                                           " message: " + message]))]
  {
    Emits(c, mm, Some(msg));
    LinesMessage(c.severity, mm, c.actual, msg, reason, actual, message);
  }

  lemma ReportsExpected(c: Assertion, mm: C.Mismatch, reason: string, actual: string, expected: string)
    requires c.log == [] && mm.Unrelated? && Reason(mm) == reason && RenderMap(c.actual) == actual
    requires RenderMap(mm.expected) == expected
    ensures Record(c, Some(mm), None).log ==
            [Report(c.severity, JoinLines([Tag(c.severity) + "# Assertion failed: " + reason, "  actual: " + actual,
                                           "expected: " + expected]))]
  {
    Emits(c, mm, None);
    LinesExpected(c.severity, mm, c.actual, reason, actual, expected);
  }

  lemma ReportsExpectedMessage(c: Assertion, mm: C.Mismatch, msg: string,
                               reason: string, actual: string, expected: string, message: string)
    requires c.log == [] && mm.Unrelated? && Reason(mm) == reason && RenderMap(c.actual) == actual
    requires RenderMap(mm.expected) == expected && Quote(msg) == message
    ensures Record(c, Some(mm), Some(msg)).log ==
            [Report(c.severity, JoinLines([Tag(c.severity) + "# Assertion failed: " + reason, "  actual: " + actual,
                                           "expected: " + expected, " message: " + message]))]
  {
    Emits(c, mm, Some(msg));
    LinesExpectedMessage(c.severity, mm, c.actual, msg, reason, actual, expected, message);
  }

  // ---- map_test.go scenarios --------------------------------------------
  // Each text is written in the pieces the reporter concatenates.

  // ---- TestMap_Length, map_test.go:26-44: the passing call, the failure.

  lemma LengthPasses()
    ensures Check(A1, Length(1)) == None
  {
  }

  lemma LengthBreaks()
    ensures Check(A1, Length(0)) == Some(C.WantedLength(0, 1))
  {
  }

  lemma LengthReason()
    ensures Reason(C.WantedLength(0, 1)) ==
            "expected map to have length " + "0" + ", but it has length " + "1"
  {
    SmallInts();
  }

  /** TestMap_Length: the log after each call of the test. */
  lemma LengthScenario()
    ensures Apply(ThatMap(A1), Length(1), None).log == []
    ensures Apply(ThatMap(A1), Length(0), None).log ==
            [Report(Error, JoinLines([
               Tag(Error) + "# Assertion failed: " +
               ("expected map to have length " + "0" + ", but it has length " + "1"),
               "  actual: " + ("{" + "\"a\":1" + "}")]))]
    ensures Apply(Must(ThatMap(A1)), Length(0), Some("index is 0")).log ==
            [Report(Fatal, JoinLines([
               Tag(Fatal) + "# Assertion failed: " +
               ("expected map to have length " + "0" + ", but it has length " + "1"),
               "  actual: " + ("{" + "\"a\":1" + "}"),
               " message: " + ("\"" + "index is 0" + "\"")]))]
  {
    LengthPasses();
    LengthBreaks();
    LengthReason();
    RenderA1();
    ReportsPlain(ThatMap(A1),
      C.WantedLength(0, 1),
      "expected map to have length " + "0" + ", but it has length " + "1",
      "{" + "\"a\":1" + "}");
    IndexIsZero();
    ReportsMessage(Must(ThatMap(A1)),
      C.WantedLength(0, 1),
      "index is 0",
      "expected map to have length " + "0" + ", but it has length " + "1",
      "{" + "\"a\":1" + "}",
      "\"" + "index is 0" + "\"");
  }

  // ---- TestMap_Nil, map_test.go:46-63: the passing call, the failure.

  lemma NilPasses()
    ensures Check(None, Nil) == None
  {
  }

  lemma NilBreaks()
    ensures Check(A1, Nil) == Some(C.WantedNil)
  {
  }

  lemma NilReason()
    ensures Reason(C.WantedNil) ==
            "expected map to be nil" + ", but it is not"
  {
  }

  /** TestMap_Nil: the log after each call of the test. */
  lemma NilScenario()
    ensures Apply(ThatMap(None), Nil, None).log == []
    ensures Apply(ThatMap(A1), Nil, None).log ==
            [Report(Error, JoinLines([
               Tag(Error) + "# Assertion failed: " +
               ("expected map to be nil" + ", but it is not"),
               "  actual: " + ("{" + "\"a\":1" + "}")]))]
    ensures Apply(Must(ThatMap(A1)), Nil, Some("index is 0")).log ==
            [Report(Fatal, JoinLines([
               Tag(Fatal) + "# Assertion failed: " +
               ("expected map to be nil" + ", but it is not"),
               "  actual: " + ("{" + "\"a\":1" + "}"),
               " message: " + ("\"" + "index is 0" + "\"")]))]
  {
    NilPasses();
    NilBreaks();
    NilReason();
    RenderA1();
    ReportsPlain(ThatMap(A1),
      C.WantedNil,
      "expected map to be nil" + ", but it is not",
      "{" + "\"a\":1" + "}");
    IndexIsZero();
    ReportsMessage(Must(ThatMap(A1)),
      C.WantedNil,
      "index is 0",
      "expected map to be nil" + ", but it is not",
      "{" + "\"a\":1" + "}",
      "\"" + "index is 0" + "\"");
  }

  // ---- TestMap_NotNil, map_test.go:65-82: the passing call, the failure.

  lemma NotNilPasses()
    ensures Check(A1, NotNil) == None
  {
  }

  lemma NotNilBreaks()
    ensures Check(None, NotNil) == Some(C.WantedNotNil)
  {
  }

  lemma NotNilReason()
    ensures Reason(C.WantedNotNil) ==
            "expected map not to be nil" + ", but it is"
  {
  }

  /** TestMap_NotNil: the log after each call of the test. */
  lemma NotNilScenario()
    ensures Apply(ThatMap(A1), NotNil, None).log == []
    ensures Apply(ThatMap(None), NotNil, None).log ==
            [Report(Error, JoinLines([
               Tag(Error) + "# Assertion failed: " +
               ("expected map not to be nil" + ", but it is"),
               "  actual: " + "null"]))]
    ensures Apply(Must(ThatMap(None)), NotNil, Some("index is 0")).log ==
            [Report(Fatal, JoinLines([
               Tag(Fatal) + "# Assertion failed: " +
               ("expected map not to be nil" + ", but it is"),
               "  actual: " + "null",
               " message: " + ("\"" + "index is 0" + "\"")]))]
  {
    NotNilPasses();
    NotNilBreaks();
    NotNilReason();
    ReportsPlain(ThatMap(None),
      C.WantedNotNil,
      "expected map not to be nil" + ", but it is",
      "null");
    IndexIsZero();
    ReportsMessage(Must(ThatMap(None)),
      C.WantedNotNil,
      "index is 0",
      "expected map not to be nil" + ", but it is",
      "null",
      "\"" + "index is 0" + "\"");
  }

  // ---- TestMap_IsEmpty, map_test.go:84-101: the passing call, the failure.

  lemma EmptyPasses()
    ensures Check(None, Empty) == None
  {
  }

  lemma EmptyBreaks()
    ensures Check(A1, Empty) == Some(C.WantedEmpty)
  {
  }

  lemma EmptyReason()
    ensures Reason(C.WantedEmpty) ==
            "expected map to be empty" + ", but it is not"
  {
  }

  /** TestMap_IsEmpty: the log after each call of the test. */
  lemma EmptyScenario()
    ensures Apply(ThatMap(None), Empty, None).log == []
    ensures Apply(ThatMap(A1), Empty, None).log ==
            [Report(Error, JoinLines([
               Tag(Error) + "# Assertion failed: " +
               ("expected map to be empty" + ", but it is not"),
               "  actual: " + ("{" + "\"a\":1" + "}")]))]
    ensures Apply(Must(ThatMap(A1)), Empty, Some("index is 0")).log ==
            [Report(Fatal, JoinLines([
               Tag(Fatal) + "# Assertion failed: " +
               ("expected map to be empty" + ", but it is not"),
               "  actual: " + ("{" + "\"a\":1" + "}"),
               " message: " + ("\"" + "index is 0" + "\"")]))]
  {
    EmptyPasses();
    EmptyBreaks();
    EmptyReason();
    RenderA1();
    ReportsPlain(ThatMap(A1),
      C.WantedEmpty,
      "expected map to be empty" + ", but it is not",
      "{" + "\"a\":1" + "}");
    IndexIsZero();
    ReportsMessage(Must(ThatMap(A1)),
      C.WantedEmpty,
      "index is 0",
      "expected map to be empty" + ", but it is not",
      "{" + "\"a\":1" + "}",
      "\"" + "index is 0" + "\"");
  }

  // ---- TestMap_IsNotEmpty, map_test.go:103-119: the passing call, the failure on nil, the failure on {}.

  lemma NotEmptyPasses()
    ensures Check(A1, NotEmpty) == None
  {
  }

  lemma NotEmptyBreaksOnNil()
    ensures Check(None, NotEmpty) == Some(C.WantedNotEmpty)
  {
  }

  lemma NotEmptyBreaksOnEmpty()
    ensures Check(Some(map[]), NotEmpty) == Some(C.WantedNotEmpty)
  {
  }

  lemma NotEmptyReason()
    ensures Reason(C.WantedNotEmpty) ==
            "expected map to be non-empty" + ", but it is empty"
  {
  }

  /** TestMap_IsNotEmpty: the log after each call of the test. */
  lemma NotEmptyScenario()
    ensures Apply(ThatMap(A1), NotEmpty, None).log == []
    ensures Apply(ThatMap(None), NotEmpty, None).log ==
            [Report(Error, JoinLines([
               Tag(Error) + "# Assertion failed: " +
               ("expected map to be non-empty" + ", but it is empty"),
               "  actual: " + "null"]))]
    ensures Apply(Must(ThatMap(Some(map[]))), NotEmpty, Some("index is 0")).log ==
            [Report(Fatal, JoinLines([
               Tag(Fatal) + "# Assertion failed: " +
               ("expected map to be non-empty" + ", but it is empty"),
               "  actual: " + "{}",
               " message: " + ("\"" + "index is 0" + "\"")]))]
  {
    NotEmptyPasses();
    NotEmptyBreaksOnNil();
    NotEmptyReason();
    ReportsPlain(ThatMap(None),
      C.WantedNotEmpty,
      "expected map to be non-empty" + ", but it is empty",
      "null");
    NotEmptyBreaksOnEmpty();
    IndexIsZero();
    ReportsMessage(Must(ThatMap(Some(map[]))),
      C.WantedNotEmpty,
      "index is 0",
      "expected map to be non-empty" + ", but it is empty",
      "{}",
      "\"" + "index is 0" + "\"");
  }

  // ---- TestMap_Equal, map_test.go:121-147: the passing call, the failure on length, the failure on a key, the failure on a value.

  lemma EqualPasses()
    ensures Check(A1, Equal(A1)) == None
  {
    CheckEqual(A1, A1, Equal(A1));
  }

  lemma EqualBreaksOnLength()
    ensures Check(A1, Equal(None)) == Some(C.Unrelated(C.EqualTo, C.LengthsDiffer, None))
  {
    CheckEqual(A1, None, Equal(None));
  }

  lemma EqualBreaksOnKey()
    ensures Check(A1, Equal(B2)) == Some(C.Unrelated(C.EqualTo, C.KeyMissing("a"), B2))
  {
    OneEntry("a", 1);
    OneEntry("b", 2);
    assert {"a"} - {"b"} == {"a"};
    CheckEqual(A1, B2, Equal(B2));
  }

  lemma EqualBreaksOnValue()
    ensures Check(A1, Equal(A2)) == Some(C.Unrelated(C.EqualTo, C.ValuesDifferAt("a"), A2))
  {
    DifferAtOne("a", 1, 2);
    CheckEqual(A1, A2, Equal(A2));
  }

  lemma EqualReasonOnLength()
    ensures Reason(C.Unrelated(C.EqualTo, C.LengthsDiffer, None)) ==
            "expected maps to be equal" + ", but " + "their lengths are different"
  {
  }

  lemma EqualReasonOnKey()
    ensures Reason(C.Unrelated(C.EqualTo, C.KeyMissing("a"), B2)) ==
            "expected maps to be equal" + ", but " + ("key '" + "a" + "' is missing")
  {
  }

  lemma EqualReasonOnValue()
    ensures Reason(C.Unrelated(C.EqualTo, C.ValuesDifferAt("a"), A2)) ==
            "expected maps to be equal" + ", but " + ("values for key '" + "a" + "' are different")
  {
  }

  /** TestMap_Equal: the log after each call of the test. */
  lemma EqualScenario()
    ensures Apply(ThatMap(A1), Equal(A1), None).log == []
    ensures Apply(ThatMap(A1), Equal(None), None).log ==
            [Report(Error, JoinLines([
               Tag(Error) + "# Assertion failed: " +
               ("expected maps to be equal" + ", but " + "their lengths are different"),
               "  actual: " + ("{" + "\"a\":1" + "}"),
               "expected: " + "null"]))]
    ensures Apply(ThatMap(A1), Equal(B2), None).log ==
            [Report(Error, JoinLines([
               Tag(Error) + "# Assertion failed: " +
               ("expected maps to be equal" + ", but " + ("key '" + "a" + "' is missing")),
               "  actual: " + ("{" + "\"a\":1" + "}"),
               "expected: " + ("{" + "\"b\":2" + "}")]))]
    ensures Apply(Must(ThatMap(A1)), Equal(A2), Some("index is 0")).log ==
            [Report(Fatal, JoinLines([
               Tag(Fatal) + "# Assertion failed: " +
               ("expected maps to be equal" + ", but " + ("values for key '" + "a" + "' are different")),
               "  actual: " + ("{" + "\"a\":1" + "}"),
               "expected: " + ("{" + "\"a\":2" + "}"),
               " message: " + ("\"" + "index is 0" + "\"")]))]
  {
    EqualPasses();
    EqualBreaksOnLength();
    EqualReasonOnLength();
    RenderA1();
    ReportsExpected(ThatMap(A1),
      C.Unrelated(C.EqualTo, C.LengthsDiffer, None),
      "expected maps to be equal" + ", but " + "their lengths are different",
      "{" + "\"a\":1" + "}",
      "null");
    EqualBreaksOnKey();
    EqualReasonOnKey();
    RenderB2();
    ReportsExpected(ThatMap(A1),
      C.Unrelated(C.EqualTo, C.KeyMissing("a"), B2),
      "expected maps to be equal" + ", but " + ("key '" + "a" + "' is missing"),
      "{" + "\"a\":1" + "}",
      "{" + "\"b\":2" + "}");
    EqualBreaksOnValue();
    EqualReasonOnValue();
    RenderA2();
    IndexIsZero();
    ReportsExpectedMessage(Must(ThatMap(A1)),
      C.Unrelated(C.EqualTo, C.ValuesDifferAt("a"), A2),
      "index is 0",
      "expected maps to be equal" + ", but " + ("values for key '" + "a" + "' are different"),
      "{" + "\"a\":1" + "}",
      "{" + "\"a\":2" + "}",
      "\"" + "index is 0" + "\"");
  }

  // ---- TestMap_NotEqual, map_test.go:149-167: the passing call, the failure.

  lemma NotEqualPasses()
    ensures Check(A1, NotEqual(B2)) == None
  {
  }

  lemma NotEqualBreaks()
    ensures Check(A1, NotEqual(A1)) == Some(C.WantedDifferent)
  {
  }

  lemma NotEqualReason()
    ensures Reason(C.WantedDifferent) ==
            "expected maps to be different" + ", but they are equal"
  {
  }

  /** TestMap_NotEqual: the log after each call of the test. */
  lemma NotEqualScenario()
    ensures Apply(ThatMap(A1), NotEqual(B2), None).log == []
    ensures Apply(ThatMap(A1), NotEqual(A1), None).log ==
            [Report(Error, JoinLines([
               Tag(Error) + "# Assertion failed: " +
               ("expected maps to be different" + ", but they are equal"),
               "  actual: " + ("{" + "\"a\":1" + "}")]))]
    ensures Apply(Must(ThatMap(A1)), NotEqual(A1), Some("index is 0")).log ==
            [Report(Fatal, JoinLines([
               Tag(Fatal) + "# Assertion failed: " +
               ("expected maps to be different" + ", but they are equal"),
               "  actual: " + ("{" + "\"a\":1" + "}"),
               " message: " + ("\"" + "index is 0" + "\"")]))]
  {
    NotEqualPasses();
    NotEqualBreaks();
    NotEqualReason();
    RenderA1();
    ReportsPlain(ThatMap(A1),
      C.WantedDifferent,
      "expected maps to be different" + ", but they are equal",
      "{" + "\"a\":1" + "}");
    IndexIsZero();
    ReportsMessage(Must(ThatMap(A1)),
      C.WantedDifferent,
      "index is 0",
      "expected maps to be different" + ", but they are equal",
      "{" + "\"a\":1" + "}",
      "\"" + "index is 0" + "\"");
  }

  // ---- TestMap_ContainsKey, map_test.go:169-187: the passing call, the failure.

  lemma ContainsKeyPasses()
    ensures Check(A1, ContainsKey("a")) == None
  {
  }

  lemma ContainsKeyBreaks()
    ensures Check(A1, ContainsKey("b")) == Some(C.WantedKey("b"))
  {
  }

  lemma ContainsKeyReason()
    ensures Reason(C.WantedKey("b")) ==
            "expected map to contain key '" + "b" + "', but it is missing"
  {
  }

  /** TestMap_ContainsKey: the log after each call of the test. */
  lemma ContainsKeyScenario()
    ensures Apply(ThatMap(A1), ContainsKey("a"), None).log == []
    ensures Apply(ThatMap(A1), ContainsKey("b"), None).log ==
            [Report(Error, JoinLines([
               Tag(Error) + "# Assertion failed: " +
               ("expected map to contain key '" + "b" + "', but it is missing"),
               "  actual: " + ("{" + "\"a\":1" + "}")]))]
    ensures Apply(Must(ThatMap(A1)), ContainsKey("b"), Some("index is 0")).log ==
            [Report(Fatal, JoinLines([
               Tag(Fatal) + "# Assertion failed: " +
               ("expected map to contain key '" + "b" + "', but it is missing"),
               "  actual: " + ("{" + "\"a\":1" + "}"),
               " message: " + ("\"" + "index is 0" + "\"")]))]
  {
    ContainsKeyPasses();
    ContainsKeyBreaks();
    ContainsKeyReason();
    RenderA1();
    ReportsPlain(ThatMap(A1),
      C.WantedKey("b"),
      "expected map to contain key '" + "b" + "', but it is missing",
      "{" + "\"a\":1" + "}");
    IndexIsZero();
    ReportsMessage(Must(ThatMap(A1)),
      C.WantedKey("b"),
      "index is 0",
      "expected map to contain key '" + "b" + "', but it is missing",
      "{" + "\"a\":1" + "}",
      "\"" + "index is 0" + "\"");
  }

  // ---- TestMap_NotContainsKey, map_test.go:189-207: the passing call, the failure.

  lemma NotContainsKeyPasses()
    ensures Check(A1, NotContainsKey("b")) == None
  {
  }

  lemma NotContainsKeyBreaks()
    ensures Check(A1, NotContainsKey("a")) == Some(C.UnwantedKey("a"))
  {
  }

  lemma NotContainsKeyReason()
    ensures Reason(C.UnwantedKey("a")) ==
            "expected map not to contain key '" + "a" + "', but it is found"
  {
  }

  /** TestMap_NotContainsKey: the log after each call of the test. */
  lemma NotContainsKeyScenario()
    ensures Apply(ThatMap(A1), NotContainsKey("b"), None).log == []
    ensures Apply(ThatMap(A1), NotContainsKey("a"), None).log ==
            [Report(Error, JoinLines([
               Tag(Error) + "# Assertion failed: " +
               ("expected map not to contain key '" + "a" + "', but it is found"),
               "  actual: " + ("{" + "\"a\":1" + "}")]))]
    ensures Apply(Must(ThatMap(A1)), NotContainsKey("a"), Some("index is 0")).log ==
            [Report(Fatal, JoinLines([
               Tag(Fatal) + "# Assertion failed: " +
               ("expected map not to contain key '" + "a" + "', but it is found"),
               "  actual: " + ("{" + "\"a\":1" + "}"),
               " message: " + ("\"" + "index is 0" + "\"")]))]
  {
    NotContainsKeyPasses();
    NotContainsKeyBreaks();
    NotContainsKeyReason();
    RenderA1();
    ReportsPlain(ThatMap(A1),
      C.UnwantedKey("a"),
      "expected map not to contain key '" + "a" + "', but it is found",
      "{" + "\"a\":1" + "}");
    IndexIsZero();
    ReportsMessage(Must(ThatMap(A1)),
      C.UnwantedKey("a"),
      "index is 0",
      "expected map not to contain key '" + "a" + "', but it is found",
      "{" + "\"a\":1" + "}",
      "\"" + "index is 0" + "\"");
  }

  // ---- TestMap_ContainsValue, map_test.go:209-227: the passing call, the failure.

  lemma ContainsValuePasses()
    ensures Check(A1, ContainsValue(1)) == None
  {
    assert Entries(A1)["a"] == 1;
  }

  lemma ContainsValueBreaks()
    ensures Check(A1, ContainsValue(2)) == Some(C.WantedValue(2))
  {
    OneEntry("a", 1);
  }

  lemma ContainsValueReason()
    ensures Reason(C.WantedValue(2)) ==
            "expected map to contain value " + "2" + ", but it is missing"
  {
    SmallInts();
  }

  /** TestMap_ContainsValue: the log after each call of the test. */
  lemma ContainsValueScenario()
    ensures Apply(ThatMap(A1), ContainsValue(1), None).log == []
    ensures Apply(ThatMap(A1), ContainsValue(2), None).log ==
            [Report(Error, JoinLines([
               Tag(Error) + "# Assertion failed: " +
               ("expected map to contain value " + "2" + ", but it is missing"),
               "  actual: " + ("{" + "\"a\":1" + "}")]))]
    ensures Apply(Must(ThatMap(A1)), ContainsValue(2), Some("index is 0")).log ==
            [Report(Fatal, JoinLines([
               Tag(Fatal) + "# Assertion failed: " +
               ("expected map to contain value " + "2" + ", but it is missing"),
               "  actual: " + ("{" + "\"a\":1" + "}"),
               " message: " + ("\"" + "index is 0" + "\"")]))]
  {
    ContainsValuePasses();
    ContainsValueBreaks();
    ContainsValueReason();
    RenderA1();
    ReportsPlain(ThatMap(A1),
      C.WantedValue(2),
      "expected map to contain value " + "2" + ", but it is missing",
      "{" + "\"a\":1" + "}");
    IndexIsZero();
    ReportsMessage(Must(ThatMap(A1)),
      C.WantedValue(2),
      "index is 0",
      "expected map to contain value " + "2" + ", but it is missing",
      "{" + "\"a\":1" + "}",
      "\"" + "index is 0" + "\"");
  }

  // ---- TestMap_NotContainsValue, map_test.go:229-247: the passing call, the failure.

  lemma NotContainsValuePasses()
    ensures Check(A1, NotContainsValue(2)) == None
  {
    OneEntry("a", 1);
  }

  lemma NotContainsValueBreaks()
    ensures Check(A1, NotContainsValue(1)) == Some(C.UnwantedValue(1))
  {
    assert Entries(A1)["a"] == 1;
  }

  lemma NotContainsValueReason()
    ensures Reason(C.UnwantedValue(1)) ==
            "expected map not to contain value " + "1" + ", but it is found"
  {
    SmallInts();
  }

  /** TestMap_NotContainsValue: the log after each call of the test. */
  lemma NotContainsValueScenario()
    ensures Apply(ThatMap(A1), NotContainsValue(2), None).log == []
    ensures Apply(ThatMap(A1), NotContainsValue(1), None).log ==
            [Report(Error, JoinLines([
               Tag(Error) + "# Assertion failed: " +
               ("expected map not to contain value " + "1" + ", but it is found"),
               "  actual: " + ("{" + "\"a\":1" + "}")]))]
    ensures Apply(Must(ThatMap(A1)), NotContainsValue(1), Some("index is 0")).log ==
            [Report(Fatal, JoinLines([
               Tag(Fatal) + "# Assertion failed: " +
               ("expected map not to contain value " + "1" + ", but it is found"),
               "  actual: " + ("{" + "\"a\":1" + "}"),
               " message: " + ("\"" + "index is 0" + "\"")]))]
  {
    NotContainsValuePasses();
    NotContainsValueBreaks();
    NotContainsValueReason();
    RenderA1();
    ReportsPlain(ThatMap(A1),
      C.UnwantedValue(1),
      "expected map not to contain value " + "1" + ", but it is found",
      "{" + "\"a\":1" + "}");
    IndexIsZero();
    ReportsMessage(Must(ThatMap(A1)),
      C.UnwantedValue(1),
      "index is 0",
      "expected map not to contain value " + "1" + ", but it is found",
      "{" + "\"a\":1" + "}",
      "\"" + "index is 0" + "\"");
  }

  // ---- TestMap_ContainsKeyValue, map_test.go:249-267: the passing call, the failure on a key, the failure on a value.

  lemma ContainsKeyValuePasses()
    ensures Check(A1, ContainsKeyValue("a", 1)) == None
  {
  }

  lemma ContainsKeyValueBreaksOnKey()
    ensures Check(A1, ContainsKeyValue("b", 2)) == Some(C.WantedKey("b"))
  {
  }

  lemma ContainsKeyValueBreaksOnValue()
    ensures Check(A1, ContainsKeyValue("a", 2)) == Some(C.WantedEntry("a", 2, 1))
  {
  }

  lemma ContainsKeyValueReasonOnValue()
    ensures Reason(C.WantedEntry("a", 2, 1)) ==
            "expected value " + "2" + " for key '" + "a" + "', but got " + "1" + " instead"
  {
    SmallInts();
  }

  /** TestMap_ContainsKeyValue: the log after each call of the test. */
  lemma ContainsKeyValueScenario()
    ensures Apply(ThatMap(A1), ContainsKeyValue("a", 1), None).log == []
    ensures Apply(ThatMap(A1), ContainsKeyValue("b", 2), None).log ==
            [Report(Error, JoinLines([
               Tag(Error) + "# Assertion failed: " +
               ("expected map to contain key '" + "b" + "', but it is missing"),
               "  actual: " + ("{" + "\"a\":1" + "}")]))]
    ensures Apply(Must(ThatMap(A1)), ContainsKeyValue("a", 2), Some("index is 0")).log ==
            [Report(Fatal, JoinLines([
               Tag(Fatal) + "# Assertion failed: " +
               ("expected value " + "2" + " for key '" + "a" + "', but got " + "1" + " instead"),
               "  actual: " + ("{" + "\"a\":1" + "}"),
               " message: " + ("\"" + "index is 0" + "\"")]))]
  {
    ContainsKeyValuePasses();
    ContainsKeyValueBreaksOnKey();
    ContainsKeyReason();
    RenderA1();
    ReportsPlain(ThatMap(A1),
      C.WantedKey("b"),
      "expected map to contain key '" + "b" + "', but it is missing",
      "{" + "\"a\":1" + "}");
    ContainsKeyValueBreaksOnValue();
    ContainsKeyValueReasonOnValue();
    IndexIsZero();
    ReportsMessage(Must(ThatMap(A1)),
      C.WantedEntry("a", 2, 1),
      "index is 0",
      "expected value " + "2" + " for key '" + "a" + "', but got " + "1" + " instead",
      "{" + "\"a\":1" + "}",
      "\"" + "index is 0" + "\"");
  }

  // ---- TestMap_ContainsKeys, map_test.go:269-287: the passing call, the failure.

  lemma ContainsKeysPasses()
    ensures Check(AB, ContainsKeys(["a", "b"])) == None
  {
  }

  lemma ContainsKeysBreaks()
    ensures Check(AB, ContainsKeys(["c"])) == Some(C.WantedKey("c"))
  {
  }

  lemma ContainsKeysReason()
    ensures Reason(C.WantedKey("c")) ==
            "expected map to contain key '" + "c" + "', but it is missing"
  {
  }

  /** TestMap_ContainsKeys: the log after each call of the test. */
  lemma ContainsKeysScenario()
    ensures Apply(ThatMap(AB), ContainsKeys(["a", "b"]), None).log == []
    ensures Apply(ThatMap(AB), ContainsKeys(["c"]), None).log ==
            [Report(Error, JoinLines([
               Tag(Error) + "# Assertion failed: " +
               ("expected map to contain key '" + "c" + "', but it is missing"),
               "  actual: " + ("{" + "\"a\":1" + "," + "\"b\":2" + "}")]))]
    ensures Apply(Must(ThatMap(AB)), ContainsKeys(["c"]), Some("index is 0")).log ==
            [Report(Fatal, JoinLines([
               Tag(Fatal) + "# Assertion failed: " +
               ("expected map to contain key '" + "c" + "', but it is missing"),
               "  actual: " + ("{" + "\"a\":1" + "," + "\"b\":2" + "}"),
               " message: " + ("\"" + "index is 0" + "\"")]))]
  {
    ContainsKeysPasses();
    ContainsKeysBreaks();
    ContainsKeysReason();
    RenderAB();
    ReportsPlain(ThatMap(AB),
      C.WantedKey("c"),
      "expected map to contain key '" + "c" + "', but it is missing",
      "{" + "\"a\":1" + "," + "\"b\":2" + "}");
    IndexIsZero();
    ReportsMessage(Must(ThatMap(AB)),
      C.WantedKey("c"),
      "index is 0",
      "expected map to contain key '" + "c" + "', but it is missing",
      "{" + "\"a\":1" + "," + "\"b\":2" + "}",
      "\"" + "index is 0" + "\"");
  }

  // ---- TestMap_NotContainsKeys, map_test.go:289-307: the passing call, the failure.

  lemma NotContainsKeysPasses()
    ensures Check(AB, NotContainsKeys(["c"])) == None
  {
  }

  lemma NotContainsKeysBreaks()
    ensures Check(AB, NotContainsKeys(["a"])) == Some(C.UnwantedKey("a"))
  {
  }

  /** TestMap_NotContainsKeys: the log after each call of the test. */
  lemma NotContainsKeysScenario()
    ensures Apply(ThatMap(AB), NotContainsKeys(["c"]), None).log == []
    ensures Apply(ThatMap(AB), NotContainsKeys(["a"]), None).log ==
            [Report(Error, JoinLines([
               Tag(Error) + "# Assertion failed: " +
               ("expected map not to contain key '" + "a" + "', but it is found"),
               "  actual: " + ("{" + "\"a\":1" + "," + "\"b\":2" + "}")]))]
    ensures Apply(Must(ThatMap(AB)), NotContainsKeys(["a"]), Some("index is 0")).log ==
            [Report(Fatal, JoinLines([
               Tag(Fatal) + "# Assertion failed: " +
               ("expected map not to contain key '" + "a" + "', but it is found"),
               "  actual: " + ("{" + "\"a\":1" + "," + "\"b\":2" + "}"),
               " message: " + ("\"" + "index is 0" + "\"")]))]
  {
    NotContainsKeysPasses();
    NotContainsKeysBreaks();
    NotContainsKeyReason();
    RenderAB();
    ReportsPlain(ThatMap(AB),
      C.UnwantedKey("a"),
      "expected map not to contain key '" + "a" + "', but it is found",
      "{" + "\"a\":1" + "," + "\"b\":2" + "}");
    IndexIsZero();
    ReportsMessage(Must(ThatMap(AB)),
      C.UnwantedKey("a"),
      "index is 0",
      "expected map not to contain key '" + "a" + "', but it is found",
      "{" + "\"a\":1" + "," + "\"b\":2" + "}",
      "\"" + "index is 0" + "\"");
  }

  // ---- TestMap_ContainsValues, map_test.go:309-327: the passing call, the failure.

  lemma ContainsValuesPasses()
    ensures Check(AB, ContainsValues([1, 2])) == None
  {
    assert Entries(AB)["a"] == 1 && Entries(AB)["b"] == 2;
  }

  lemma ContainsValuesBreaks()
    ensures Check(AB, ContainsValues([3])) == Some(C.WantedValue(3))
  {
    TwoEntries("a", 1, "b", 2);
  }

  lemma ContainsValuesReason()
    ensures Reason(C.WantedValue(3)) ==
            "expected map to contain value " + "3" + ", but it is missing"
  {
    SmallInts();
  }

  /** TestMap_ContainsValues: the log after each call of the test. */
  lemma ContainsValuesScenario()
    ensures Apply(ThatMap(AB), ContainsValues([1, 2]), None).log == []
    ensures Apply(ThatMap(AB), ContainsValues([3]), None).log ==
            [Report(Error, JoinLines([
               Tag(Error) + "# Assertion failed: " +
               ("expected map to contain value " + "3" + ", but it is missing"),
               "  actual: " + ("{" + "\"a\":1" + "," + "\"b\":2" + "}")]))]
    ensures Apply(Must(ThatMap(AB)), ContainsValues([3]), Some("index is 0")).log ==
            [Report(Fatal, JoinLines([
               Tag(Fatal) + "# Assertion failed: " +
               ("expected map to contain value " + "3" + ", but it is missing"),
               "  actual: " + ("{" + "\"a\":1" + "," + "\"b\":2" + "}"),
               " message: " + ("\"" + "index is 0" + "\"")]))]
  {
    ContainsValuesPasses();
    ContainsValuesBreaks();
    ContainsValuesReason();
    RenderAB();
    ReportsPlain(ThatMap(AB),
      C.WantedValue(3),
      "expected map to contain value " + "3" + ", but it is missing",
      "{" + "\"a\":1" + "," + "\"b\":2" + "}");
    IndexIsZero();
    ReportsMessage(Must(ThatMap(AB)),
      C.WantedValue(3),
      "index is 0",
      "expected map to contain value " + "3" + ", but it is missing",
      "{" + "\"a\":1" + "," + "\"b\":2" + "}",
      "\"" + "index is 0" + "\"");
  }

  // ---- TestMap_NotContainsValues, map_test.go:329-347: the passing call, the failure.

  lemma NotContainsValuesPasses()
    ensures Check(AB, NotContainsValues([3])) == None
  {
    TwoEntries("a", 1, "b", 2);
  }

  lemma NotContainsValuesBreaks()
    ensures Check(AB, NotContainsValues([1])) == Some(C.UnwantedValue(1))
  {
    assert Entries(AB)["a"] == 1;
  }

  /** TestMap_NotContainsValues: the log after each call of the test. */
  lemma NotContainsValuesScenario()
    ensures Apply(ThatMap(AB), NotContainsValues([3]), None).log == []
    ensures Apply(ThatMap(AB), NotContainsValues([1]), None).log ==
            [Report(Error, JoinLines([
               Tag(Error) + "# Assertion failed: " +
               ("expected map not to contain value " + "1" + ", but it is found"),
               "  actual: " + ("{" + "\"a\":1" + "," + "\"b\":2" + "}")]))]
    ensures Apply(Must(ThatMap(AB)), NotContainsValues([1]), Some("index is 0")).log ==
            [Report(Fatal, JoinLines([
               Tag(Fatal) + "# Assertion failed: " +
               ("expected map not to contain value " + "1" + ", but it is found"),
               "  actual: " + ("{" + "\"a\":1" + "," + "\"b\":2" + "}"),
               " message: " + ("\"" + "index is 0" + "\"")]))]
  {
    NotContainsValuesPasses();
    NotContainsValuesBreaks();
    NotContainsValueReason();
    RenderAB();
    ReportsPlain(ThatMap(AB),
      C.UnwantedValue(1),
      "expected map not to contain value " + "1" + ", but it is found",
      "{" + "\"a\":1" + "," + "\"b\":2" + "}");
    IndexIsZero();
    ReportsMessage(Must(ThatMap(AB)),
      C.UnwantedValue(1),
      "index is 0",
      "expected map not to contain value " + "1" + ", but it is found",
      "{" + "\"a\":1" + "," + "\"b\":2" + "}",
      "\"" + "index is 0" + "\"");
  }

  // ---- TestMap_SubsetOf, map_test.go:349-368: the passing call, the failure on a key, the failure on a value.

  lemma SubsetOfPasses()
    ensures Check(A1, SubsetOf(AB)) == None
  {
    HoldsAsSubset(A1, AB);
  }

  lemma SubsetOfBreaksOnKey()
    ensures Check(AB, SubsetOf(A1)) == Some(C.Unrelated(C.Subset, C.UnexpectedKey("b"), A1))
  {
    TwoEntries("a", 1, "b", 2);
    OneEntry("a", 1);
    assert {"a", "b"} - {"a"} == {"b"};
    CheckSubsetOf(AB, A1, SubsetOf(A1));
  }

  lemma SubsetOfBreaksOnValue()
    ensures Check(A1, SubsetOf(A2)) == Some(C.Unrelated(C.Subset, C.ValuesDifferAt("a"), A2))
  {
    DifferAtOne("a", 1, 2);
    CheckSubsetOf(A1, A2, SubsetOf(A2));
  }

  lemma SubsetOfReasonOnKey()
    ensures Reason(C.Unrelated(C.Subset, C.UnexpectedKey("b"), A1)) ==
            "expected map to be a subset" + ", but " + ("unexpected key '" + "b" + "' is found")
  {
  }

  lemma SubsetOfReasonOnValue()
    ensures Reason(C.Unrelated(C.Subset, C.ValuesDifferAt("a"), A2)) ==
            "expected map to be a subset" + ", but " + ("values for key '" + "a" + "' are different")
  {
  }

  /** TestMap_SubsetOf: the log after each call of the test. */
  lemma SubsetOfScenario()
    ensures Apply(ThatMap(A1), SubsetOf(AB), None).log == []
    ensures Apply(ThatMap(AB), SubsetOf(A1), None).log ==
            [Report(Error, JoinLines([
               Tag(Error) + "# Assertion failed: " +
               ("expected map to be a subset" + ", but " + ("unexpected key '" + "b" + "' is found")),
               "  actual: " + ("{" + "\"a\":1" + "," + "\"b\":2" + "}"),
               "expected: " + ("{" + "\"a\":1" + "}")]))]
    ensures Apply(Must(ThatMap(A1)), SubsetOf(A2), Some("index is 0")).log ==
            [Report(Fatal, JoinLines([
               Tag(Fatal) + "# Assertion failed: " +
               ("expected map to be a subset" + ", but " + ("values for key '" + "a" + "' are different")),
               "  actual: " + ("{" + "\"a\":1" + "}"),
               "expected: " + ("{" + "\"a\":2" + "}"),
               " message: " + ("\"" + "index is 0" + "\"")]))]
  {
    SubsetOfPasses();
    SubsetOfBreaksOnKey();
    SubsetOfReasonOnKey();
    RenderAB();
    RenderA1();
    ReportsExpected(ThatMap(AB),
      C.Unrelated(C.Subset, C.UnexpectedKey("b"), A1),
      "expected map to be a subset" + ", but " + ("unexpected key '" + "b" + "' is found"),
      "{" + "\"a\":1" + "," + "\"b\":2" + "}",
      "{" + "\"a\":1" + "}");
    SubsetOfBreaksOnValue();
    SubsetOfReasonOnValue();
    RenderA2();
    IndexIsZero();
    ReportsExpectedMessage(Must(ThatMap(A1)),
      C.Unrelated(C.Subset, C.ValuesDifferAt("a"), A2),
      "index is 0",
      "expected map to be a subset" + ", but " + ("values for key '" + "a" + "' are different"),
      "{" + "\"a\":1" + "}",
      "{" + "\"a\":2" + "}",
      "\"" + "index is 0" + "\"");
  }

  // ---- TestMap_SupersetOf, map_test.go:370-389: the passing call, the failure on a key, the failure on a value.

  lemma SupersetOfPasses()
    ensures Check(AB, SupersetOf(A1)) == None
  {
    HoldsAsSuperset(AB, A1);
  }

  lemma SupersetOfBreaksOnKey()
    ensures Check(A1, SupersetOf(AB)) == Some(C.Unrelated(C.Superset, C.KeyMissing("b"), AB))
  {
    TwoEntries("a", 1, "b", 2);
    OneEntry("a", 1);
    assert {"a", "b"} - {"a"} == {"b"};
    CheckSupersetOf(A1, AB, SupersetOf(AB));
  }

  lemma SupersetOfBreaksOnValue()
    ensures Check(A1, SupersetOf(A2)) == Some(C.Unrelated(C.Superset, C.ValuesDifferAt("a"), A2))
  {
    DifferAtOne("a", 2, 1);
    CheckSupersetOf(A1, A2, SupersetOf(A2));
  }

  lemma SupersetOfReasonOnKey()
    ensures Reason(C.Unrelated(C.Superset, C.KeyMissing("b"), AB)) ==
            "expected map to be a superset" + ", but " + ("key '" + "b" + "' is missing")
  {
  }

  lemma SupersetOfReasonOnValue()
    ensures Reason(C.Unrelated(C.Superset, C.ValuesDifferAt("a"), A2)) ==
            "expected map to be a superset" + ", but " + ("values for key '" + "a" + "' are different")
  {
  }

  /** TestMap_SupersetOf: the log after each call of the test. */
  lemma SupersetOfScenario()
    ensures Apply(ThatMap(AB), SupersetOf(A1), None).log == []
    ensures Apply(ThatMap(A1), SupersetOf(AB), None).log ==
            [Report(Error, JoinLines([
               Tag(Error) + "# Assertion failed: " +
               ("expected map to be a superset" + ", but " + ("key '" + "b" + "' is missing")),
               "  actual: " + ("{" + "\"a\":1" + "}"),
               "expected: " + ("{" + "\"a\":1" + "," + "\"b\":2" + "}")]))]
    ensures Apply(Must(ThatMap(A1)), SupersetOf(A2), Some("index is 0")).log ==
            [Report(Fatal, JoinLines([
               Tag(Fatal) + "# Assertion failed: " +
               ("expected map to be a superset" + ", but " + ("values for key '" + "a" + "' are different")),
               "  actual: " + ("{" + "\"a\":1" + "}"),
               "expected: " + ("{" + "\"a\":2" + "}"),
               " message: " + ("\"" + "index is 0" + "\"")]))]
  {
    SupersetOfPasses();
    SupersetOfBreaksOnKey();
    SupersetOfReasonOnKey();
    RenderA1();
    RenderAB();
    ReportsExpected(ThatMap(A1),
      C.Unrelated(C.Superset, C.KeyMissing("b"), AB),
      "expected map to be a superset" + ", but " + ("key '" + "b" + "' is missing"),
      "{" + "\"a\":1" + "}",
      "{" + "\"a\":1" + "," + "\"b\":2" + "}");
    SupersetOfBreaksOnValue();
    SupersetOfReasonOnValue();
    RenderA2();
    IndexIsZero();
    ReportsExpectedMessage(Must(ThatMap(A1)),
      C.Unrelated(C.Superset, C.ValuesDifferAt("a"), A2),
      "index is 0",
      "expected map to be a superset" + ", but " + ("values for key '" + "a" + "' are different"),
      "{" + "\"a\":1" + "}",
      "{" + "\"a\":2" + "}",
      "\"" + "index is 0" + "\"");
  }

  // ---- TestMap_HasSameKeys, map_test.go:391-410: the passing call, the failure on length, the failure on a key.

  lemma HasSameKeysPasses()
    ensures Check(AB, HasSameKeys(BA)) == None
  {
    TwoEntries("a", 1, "b", 2);
    TwoEntries("b", 3, "a", 4);
    CheckHasSameKeys(AB, BA, HasSameKeys(BA));
  }

  lemma HasSameKeysBreaksOnLength()
    ensures Check(AB, HasSameKeys(C3)) == Some(C.Unrelated(C.SameKeys, C.LengthsDiffer, C3))
  {
    TwoEntries("a", 1, "b", 2);
    CheckHasSameKeys(AB, C3, HasSameKeys(C3));
  }

  lemma HasSameKeysBreaksOnKey()
    ensures Check(AB, HasSameKeys(BC)) == Some(C.Unrelated(C.SameKeys, C.KeyMissing("a"), BC))
  {
    TwoEntries("a", 1, "b", 2);
    TwoEntries("b", 2, "c", 3);
    assert {"a", "b"} - {"b", "c"} == {"a"};
    CheckHasSameKeys(AB, BC, HasSameKeys(BC));
  }

  lemma HasSameKeysReasonOnLength()
    ensures Reason(C.Unrelated(C.SameKeys, C.LengthsDiffer, C3)) ==
            "expected maps to have the same keys" + ", but " + "their lengths are different"
  {
  }

  lemma HasSameKeysReasonOnKey()
    ensures Reason(C.Unrelated(C.SameKeys, C.KeyMissing("a"), BC)) ==
            "expected maps to have the same keys" + ", but " + ("key '" + "a" + "' is missing")
  {
  }

  /** TestMap_HasSameKeys: the log after each call of the test. */
  lemma HasSameKeysScenario()
    ensures Apply(ThatMap(AB), HasSameKeys(BA), None).log == []
    ensures Apply(ThatMap(AB), HasSameKeys(C3), None).log ==
            [Report(Error, JoinLines([
               Tag(Error) + "# Assertion failed: " +
               ("expected maps to have the same keys" + ", but " + "their lengths are different"),
               "  actual: " + ("{" + "\"a\":1" + "," + "\"b\":2" + "}"),
               "expected: " + ("{" + "\"c\":3" + "}")]))]
    ensures Apply(Must(ThatMap(AB)), HasSameKeys(BC), Some("index is 0")).log ==
            [Report(Fatal, JoinLines([
               Tag(Fatal) + "# Assertion failed: " +
               ("expected maps to have the same keys" + ", but " + ("key '" + "a" + "' is missing")),
               "  actual: " + ("{" + "\"a\":1" + "," + "\"b\":2" + "}"),
               "expected: " + ("{" + "\"b\":2" + "," + "\"c\":3" + "}"),
               " message: " + ("\"" + "index is 0" + "\"")]))]
  {
    HasSameKeysPasses();
    HasSameKeysBreaksOnLength();
    HasSameKeysReasonOnLength();
    RenderAB();
    RenderC3();
    ReportsExpected(ThatMap(AB),
      C.Unrelated(C.SameKeys, C.LengthsDiffer, C3),
      "expected maps to have the same keys" + ", but " + "their lengths are different",
      "{" + "\"a\":1" + "," + "\"b\":2" + "}",
      "{" + "\"c\":3" + "}");
    HasSameKeysBreaksOnKey();
    HasSameKeysReasonOnKey();
    RenderBC();
    IndexIsZero();
    ReportsExpectedMessage(Must(ThatMap(AB)),
      C.Unrelated(C.SameKeys, C.KeyMissing("a"), BC),
      "index is 0",
      "expected maps to have the same keys" + ", but " + ("key '" + "a" + "' is missing"),
      "{" + "\"a\":1" + "," + "\"b\":2" + "}",
      "{" + "\"b\":2" + "," + "\"c\":3" + "}",
      "\"" + "index is 0" + "\"");
  }

  // ---- TestMap_HasSameValues, map_test.go:412-431: the passing call, the failure on length, the failure on the values.

  lemma HasSameValuesPasses()
    ensures Check(AB, HasSameValues(XY)) == None
  {
    forall v: int
      ensures C.Count(Entries(AB), v) == C.Count(Entries(XY), v)
    {
      C.CountPair("a", 1, "b", 2, v);
      C.CountPair("x", 1, "y", 2, v);
    }
    CheckHasSameValues(AB, XY, HasSameValues(XY));
  }

  lemma HasSameValuesBreaksOnLength()
    ensures Check(AB, HasSameValues(C3)) == Some(C.Unrelated(C.SameValues, C.LengthsDiffer, C3))
  {
    TwoEntries("a", 1, "b", 2);
    CheckHasSameValues(AB, C3, HasSameValues(C3));
  }

  lemma HasSameValuesBreaksOnValues()
    ensures Check(AB, HasSameValues(BC)) == Some(C.Unrelated(C.SameValues, C.ValuesDiffer, BC))
  {
    TwoEntries("a", 1, "b", 2);
    TwoEntries("b", 2, "c", 3);
    assert |{"a", "b"}| == 2 && |{"b", "c"}| == 2;
    C.CountPair("a", 1, "b", 2, 1);
    C.CountPair("b", 2, "c", 3, 1);
    ValuesDifferWitness(AB, BC, 1);
    CheckHasSameValues(AB, BC, HasSameValues(BC));
  }

  lemma HasSameValuesReasonOnLength()
    ensures Reason(C.Unrelated(C.SameValues, C.LengthsDiffer, C3)) ==
            "expected maps to have the same values" + ", but " + "their lengths are different"
  {
  }

  lemma HasSameValuesReasonOnValues()
    ensures Reason(C.Unrelated(C.SameValues, C.ValuesDiffer, BC)) ==
            "expected maps to have the same values" + ", but " + "their values are different"
  {
  }

  /** TestMap_HasSameValues: the log after each call of the test. */
  lemma HasSameValuesScenario()
    ensures Apply(ThatMap(AB), HasSameValues(XY), None).log == []
    ensures Apply(ThatMap(AB), HasSameValues(C3), None).log ==
            [Report(Error, JoinLines([
               Tag(Error) + "# Assertion failed: " +
               ("expected maps to have the same values" + ", but " + "their lengths are different"),
               "  actual: " + ("{" + "\"a\":1" + "," + "\"b\":2" + "}"),
               "expected: " + ("{" + "\"c\":3" + "}")]))]
    ensures Apply(Must(ThatMap(AB)), HasSameValues(BC), Some("index is 0")).log ==
            [Report(Fatal, JoinLines([
               Tag(Fatal) + "# Assertion failed: " +
               ("expected maps to have the same values" + ", but " + "their values are different"),
               "  actual: " + ("{" + "\"a\":1" + "," + "\"b\":2" + "}"),
               "expected: " + ("{" + "\"b\":2" + "," + "\"c\":3" + "}"),
               " message: " + ("\"" + "index is 0" + "\"")]))]
  {
    HasSameValuesPasses();
    HasSameValuesBreaksOnLength();
    HasSameValuesReasonOnLength();
    RenderAB();
    RenderC3();
    ReportsExpected(ThatMap(AB),
      C.Unrelated(C.SameValues, C.LengthsDiffer, C3),
      "expected maps to have the same values" + ", but " + "their lengths are different",
      "{" + "\"a\":1" + "," + "\"b\":2" + "}",
      "{" + "\"c\":3" + "}");
    HasSameValuesBreaksOnValues();
    HasSameValuesReasonOnValues();
    RenderBC();
    IndexIsZero();
    ReportsExpectedMessage(Must(ThatMap(AB)),
      C.Unrelated(C.SameValues, C.ValuesDiffer, BC),
      "index is 0",
      "expected maps to have the same values" + ", but " + "their values are different",
      "{" + "\"a\":1" + "," + "\"b\":2" + "}",
      "{" + "\"b\":2" + "," + "\"c\":3" + "}",
      "\"" + "index is 0" + "\"");
  }
}
