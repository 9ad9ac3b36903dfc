/** Turns a mismatch into the diagnostic handed to the failure sink:

      <severity># Assertion failed: <reason>
        actual: <rendered actual>
      expected: <rendered expected>     (two-map relations only)
       message: "<message>"             (only when a message is given)
 */
module Reporter {
  import opened Wrappers
  import opened GoMaps
  import opened Render
  import opened Comparator

  /** `error` lets the test continue; `fatal` asks the sink to stop it. */
  datatype Severity = Error | Fatal

  function Tag(s: Severity): string
  {
    match s
    case Error => "error"
    case Fatal => "fatal"
  }

  /** What the relation promised, the part of the reason before ", but". */
  function RelationPhrase(rel: Relation): string
  {
    match rel
    case EqualTo => "expected maps to be equal"
    case Subset => "expected map to be a subset"
    case Superset => "expected map to be a superset"
    case SameKeys => "expected maps to have the same keys"
    case SameValues => "expected maps to have the same values"
  }

  function DiffPhrase(d: Diff): string
  {
    match d
    case LengthsDiffer => "their lengths are different"
    case KeyMissing(k) => "key '" + k + "' is missing"
    case UnexpectedKey(k) => "unexpected key '" + k + "' is found"
    case ValuesDifferAt(k) => "values for key '" + k + "' are different"
    case ValuesDiffer => "their values are different"
  }

  /** The `n` characters of `s` from position `i`. */
  function Piece(s: string, i: int, n: int): string
    requires 0 <= i && 0 <= n && i + n <= |s|
  {
    s[i..i + n]
  }

  /** `w` occurs in `s` as a contiguous piece. */
  predicate Mentions(s: string, w: string)
  {
    exists i :: 0 <= i <= |s| - |w| && Piece(s, i, |w|) == w
  }

  /** A key spliced between a piece ending in a single quote and a piece
      starting with one is mentioned quoted. */
  lemma QuotedAt(pre: string, k: string, post: string)
    requires |pre| > 0 && pre[|pre| - 1] == '\'' && |post| > 0 && post[0] == '\''
    ensures Mentions(pre + k + post, "'" + k + "'")
  {
    var s, i, w := pre + k + post, |pre| - 1, "'" + k + "'";
    assert Piece(s, i, |w|) == w by {
      forall j | 0 <= j < |w|
        ensures s[i + j] == w[j]
      {
        if 0 < j < |w| - 1 {
          assert s[i + j] == k[j - 1];
        }
      }
    }
  }

  /** As `QuotedAt`, with the quoted key inside a phrase that follows `front`. */
  lemma QuotedAfter(front: string, pre: string, k: string, post: string)
    requires |pre| > 0 && pre[|pre| - 1] == '\'' && |post| > 0 && post[0] == '\''
    ensures Mentions(front + (pre + k + post), "'" + k + "'")
  {
    QuotedAt(front + pre, k, post);
    assert front + (pre + k + post) == front + pre + k + post;
  }

  /** As `QuotedAt`, with the text after the key in three pieces. */
  lemma QuotedBefore(pre: string, k: string, p1: string, p2: string, p3: string)
    requires |pre| > 0 && pre[|pre| - 1] == '\'' && |p1| > 0 && p1[0] == '\''
    ensures Mentions(pre + k + p1 + p2 + p3, "'" + k + "'")
  {
    QuotedAt(pre, k, p1 + p2 + p3);
    assert pre + k + p1 + p2 + p3 == pre + k + (p1 + p2 + p3);
  }

  /** `s` ends with `w`. */
  predicate EndsWith(s: string, w: string)
  {
    |w| <= |s| && s[|s| - |w|..] == w
  }

  /** A piece spliced between a piece ending in `c` and a piece starting
      with `d` is mentioned between `c` and `d`. */
  lemma Delimited(pre: string, w: string, post: string, c: string, d: string)
    requires |c| == 1 && |d| == 1 && |pre| > 0 && |post| > 0
    requires pre[|pre| - 1] == c[0] && post[0] == d[0]
    ensures Mentions(pre + w + post, c + w + d)
  {
    var s, i, x := pre + w + post, |pre| - 1, c + w + d;
    assert Piece(s, i, |x|) == x by {
      forall j | 0 <= j < |x|
        ensures s[i + j] == x[j]
      {
        if 0 < j < |x| - 1 {
          assert s[i + j] == w[j - 1];
        }
      }
    }
  }

  /** A piece at the end of a text, after a piece ending in `c`, ends it
      together with `c`. */
  lemma EndsAfter(pre: string, w: string, c: string)
    requires |c| == 1 && |pre| > 0 && pre[|pre| - 1] == c[0]
    ensures EndsWith(pre + w, c + w)
  {
    var s, x := pre + w, c + w;
    assert s[|s| - |x|..] == x by {
      forall j | 0 <= j < |x|
        ensures s[|s| - |x| + j] == x[j]
      {
        if 0 < j {
          assert s[|s| - |x| + j] == w[j - 1];
        }
      }
    }
  }

  /** The length sentence names both lengths. */
  lemma LengthsMentioned(pre: string, n: int, mid: string, l: int)
    requires |pre| > 0 && pre[|pre| - 1] == ' ' && |mid| > 1 && mid[0] == ',' && mid[|mid| - 1] == ' '
    ensures Mentions(pre + IntToString(n) + mid + IntToString(l), " " + IntToString(n) + ",")
    ensures EndsWith(pre + IntToString(n) + mid + IntToString(l), " " + IntToString(l))
  {
    Delimited(pre, IntToString(n), mid + IntToString(l), " ", ",");
    assert pre + IntToString(n) + (mid + IntToString(l)) == pre + IntToString(n) + mid + IntToString(l);
    EndsAfter(pre + IntToString(n) + mid, IntToString(l), " ");
  }

  /** The entry sentence names the wanted and the found value. */
  lemma EntryValuesMentioned(pre: string, v: int, mid: string, got: int, post: string)
    requires |pre| > 0 && pre[|pre| - 1] == ' ' && |mid| > 1 && mid[0] == ' ' && mid[|mid| - 1] == ' '
    requires |post| > 0 && post[0] == ' '
    ensures Mentions(pre + IntToString(v) + mid + IntToString(got) + post, " " + IntToString(v) + " ")
    ensures Mentions(pre + IntToString(v) + mid + IntToString(got) + post, " " + IntToString(got) + " ")
  {
    Delimited(pre, IntToString(v), mid + IntToString(got) + post, " ", " ");
    assert pre + IntToString(v) + (mid + IntToString(got) + post) == pre + IntToString(v) + mid + IntToString(got) + post;
    Delimited(pre + IntToString(v) + mid, IntToString(got), post, " ", " ");
  }

  /** A breach phrase naming a key quotes it. */
  function DiffPhraseQuotes(d: Diff, promise: string): (r: string)
    requires !d.LengthsDiffer? && !d.ValuesDiffer?
    ensures r == promise + ", but " + DiffPhrase(d)
    ensures Mentions(r, "'" + d.key + "'")
  {
    match d
    case KeyMissing(k) =>
      QuotedAfter(promise + ", but ", "key '", k, "' is missing");
      promise + ", but " + DiffPhrase(d)
    case UnexpectedKey(k) =>
      QuotedAfter(promise + ", but ", "unexpected key '", k, "' is found");
      promise + ", but " + DiffPhrase(d)
    case ValuesDifferAt(k) =>
      QuotedAfter(promise + ", but ", "values for key '", k, "' are different");
      promise + ", but " + DiffPhrase(d)
  }

  /** The reason sentence. Keys appear verbatim between single quotes,
      values and lengths as decimal integers (`ReasonNamesIntegers`). */
  function Reason(mm: Mismatch): (r: string)
    ensures NamedKey(mm).Some? ==> Mentions(r, "'" + NamedKey(mm).value + "'")
  {
    match mm
    case WantedLength(n, l) =>
      "expected map to have length " + IntToString(n) + ", but it has length " + IntToString(l)
    case WantedNil => "expected map to be nil" + ", but it is not"
    case WantedNotNil => "expected map not to be nil" + ", but it is"
    case WantedEmpty => "expected map to be empty" + ", but it is not"
    case WantedNotEmpty => "expected map to be non-empty" + ", but it is empty"
    case WantedDifferent => "expected maps to be different" + ", but they are equal"
    case WantedKey(k) =>
      QuotedAt("expected map to contain key '", k, "', but it is missing");
      "expected map to contain key '" + k + "', but it is missing"
    case UnwantedKey(k) =>
      QuotedAt("expected map not to contain key '", k, "', but it is found");
      "expected map not to contain key '" + k + "', but it is found"
    case WantedValue(v) => "expected map to contain value " + IntToString(v) + ", but it is missing"
    case UnwantedValue(v) => "expected map not to contain value " + IntToString(v) + ", but it is found"
    case WantedEntry(k, v, got) =>
      QuotedBefore("expected value " + IntToString(v) + " for key '", k, "', but got ", IntToString(got), " instead");
      "expected value " + IntToString(v) + " for key '" + k + "', but got " + IntToString(got) + " instead"
    case Unrelated(rel, d, _) =>
      if d.LengthsDiffer? || d.ValuesDiffer? then RelationPhrase(rel) + ", but " + DiffPhrase(d)
      else DiffPhraseQuotes(d, RelationPhrase(rel))
  }

  /** The key a mismatch names, if any. */
  function NamedKey(mm: Mismatch): Option<string>
  {
    match mm
    case WantedKey(k) => Some(k)
    case UnwantedKey(k) => Some(k)
    case WantedEntry(k, _, _) => Some(k)
    case Unrelated(_, d, _) => if d.LengthsDiffer? || d.ValuesDiffer? then None else Some(d.key)
    case _ => None
  }

  // Every integer a reason sentence reports appears in it in decimal, set off
  // by a space before and a comma, a space or the end of the sentence after.

  lemma LengthReasonNamesLengths(n: int, l: nat)
    ensures Mentions(Reason(WantedLength(n, l)), " " + IntToString(n) + ",")
    ensures EndsWith(Reason(WantedLength(n, l)), " " + IntToString(l))
  {
    LengthsMentioned("expected map to have length ", n, ", but it has length ", l);
  }

  lemma WantedValueReasonNamesValue(v: int)
    ensures Mentions(Reason(WantedValue(v)), " " + IntToString(v) + ",")
  {
    Delimited("expected map to contain value ", IntToString(v), ", but it is missing", " ", ",");
  }

  lemma UnwantedValueReasonNamesValue(v: int)
    ensures Mentions(Reason(UnwantedValue(v)), " " + IntToString(v) + ",")
  {
    Delimited("expected map not to contain value ", IntToString(v), ", but it is found", " ", ",");
  }

  lemma EntryReasonNamesValues(k: string, v: int, got: int)
    ensures Mentions(Reason(WantedEntry(k, v, got)), " " + IntToString(v) + " ")
    ensures Mentions(Reason(WantedEntry(k, v, got)), " " + IntToString(got) + " ")
  {
    EntryValuesMentioned("expected value ", v, " for key '" + k + "', but got ", got, " instead");
    assert "expected value " + IntToString(v) + (" for key '" + k + "', but got ") + IntToString(got) + " instead"
        == "expected value " + IntToString(v) + " for key '" + k + "', but got " + IntToString(got) + " instead";
  }

  /** The reason sentence names every integer the mismatch carries: both
      lengths, the wanted or unwanted value, the wanted and the found value. */
  lemma ReasonNamesIntegers(mm: Mismatch)
    ensures mm.WantedLength? ==>
      Mentions(Reason(mm), " " + IntToString(mm.want) + ",") && EndsWith(Reason(mm), " " + IntToString(mm.length))
    ensures mm.WantedValue? || mm.UnwantedValue? ==> Mentions(Reason(mm), " " + IntToString(mm.value) + ",")
    ensures mm.WantedEntry? ==>
      Mentions(Reason(mm), " " + IntToString(mm.want) + " ") && Mentions(Reason(mm), " " + IntToString(mm.got) + " ")
  {
    match mm
    case WantedLength(n, l) => LengthReasonNamesLengths(n, l);
    case WantedValue(v) => WantedValueReasonNamesValue(v);
    case UnwantedValue(v) => UnwantedValueReasonNamesValue(v);
    case WantedEntry(k, v, got) => EntryReasonNamesValues(k, v, got);
    case _ =>
  }

  // No reason sentence holds a line feed of its own.

  lemma OneLine(a: string, b: string)
    requires '\n' !in a && '\n' !in b
    ensures '\n' !in a + b
  {
  }

  lemma LengthReasonOneLine(n: int, l: nat)
    ensures '\n' !in Reason(WantedLength(n, l))
  {
    assert '\n' !in "expected map to have length ";
    assert '\n' !in ", but it has length ";
  }

  lemma NilReasonOneLine()
    ensures '\n' !in Reason(WantedNil)
  {
    assert '\n' !in "expected map to be nil";
    assert '\n' !in ", but it is not";
  }

  lemma NotNilReasonOneLine()
    ensures '\n' !in Reason(WantedNotNil)
  {
    assert '\n' !in "expected map not to be nil";
    assert '\n' !in ", but it is";
  }

  lemma EmptyReasonOneLine()
    ensures '\n' !in Reason(WantedEmpty)
  {
    assert '\n' !in "expected map to be empty";
    assert '\n' !in ", but it is not";
  }

  lemma NotEmptyReasonOneLine()
    ensures '\n' !in Reason(WantedNotEmpty)
  {
    assert '\n' !in "expected map to be non-empty";
    assert '\n' !in ", but it is empty";
  }

  lemma DifferentReasonOneLine()
    ensures '\n' !in Reason(WantedDifferent)
  {
    assert '\n' !in "expected maps to be different";
    assert '\n' !in ", but they are equal";
  }

  lemma WantedKeyReasonOneLine(k: string)
    requires '\n' !in k
    ensures '\n' !in Reason(WantedKey(k))
  {
    assert '\n' !in "expected map to contain key '";
    assert '\n' !in "', but it is missing";
  }

  lemma UnwantedKeyReasonOneLine(k: string)
    requires '\n' !in k
    ensures '\n' !in Reason(UnwantedKey(k))
  {
    assert '\n' !in "expected map not to contain key '";
    assert '\n' !in "', but it is found";
  }

  lemma WantedValueReasonOneLine(v: int)
    ensures '\n' !in Reason(WantedValue(v))
  {
    assert '\n' !in "expected map to contain value ";
    assert '\n' !in ", but it is missing";
  }

  lemma UnwantedValueReasonOneLine(v: int)
    ensures '\n' !in Reason(UnwantedValue(v))
  {
    assert '\n' !in "expected map not to contain value ";
    assert '\n' !in ", but it is found";
  }

  lemma EntryReasonOneLine(k: string, v: int, got: int)
    requires '\n' !in k
    ensures '\n' !in Reason(WantedEntry(k, v, got))
  {
    assert '\n' !in "expected value ";
    assert '\n' !in " for key '";
    assert '\n' !in "', but got ";
    assert '\n' !in " instead";
  }

  lemma RelationPhraseSingleLine(rel: Relation)
    ensures '\n' !in RelationPhrase(rel)
  {
    match rel
    case EqualTo => assert '\n' !in "expected maps to be equal";
    case Subset => assert '\n' !in "expected map to be a subset";
    case Superset => assert '\n' !in "expected map to be a superset";
    case SameKeys => assert '\n' !in "expected maps to have the same keys";
    case SameValues => assert '\n' !in "expected maps to have the same values";
  }

  lemma QuotedOneLine(before: string, k: string, after: string)
    requires '\n' !in before && '\n' !in k && '\n' !in after
    ensures '\n' !in before + k + after
  {
    OneLine(before, k);
    OneLine(before + k, after);
  }

  lemma DiffPhraseSingleLine(d: Diff)
    requires !d.LengthsDiffer? && !d.ValuesDiffer? ==> '\n' !in d.key
    ensures '\n' !in DiffPhrase(d)
  {
    match d
    case LengthsDiffer => assert '\n' !in "their lengths are different";
    case KeyMissing(k) =>
      assert '\n' !in "key '" && '\n' !in "' is missing";
      QuotedOneLine("key '", k, "' is missing");
    case UnexpectedKey(k) =>
      assert '\n' !in "unexpected key '" && '\n' !in "' is found";
      QuotedOneLine("unexpected key '", k, "' is found");
    case ValuesDifferAt(k) =>
      assert '\n' !in "values for key '" && '\n' !in "' are different";
      QuotedOneLine("values for key '", k, "' are different");
    case ValuesDiffer => assert '\n' !in "their values are different";
  }

  lemma UnrelatedReasonOneLine(rel: Relation, d: Diff, e: GoMap)
    requires !d.LengthsDiffer? && !d.ValuesDiffer? ==> '\n' !in d.key
    ensures '\n' !in Reason(Unrelated(rel, d, e))
  {
    RelationPhraseSingleLine(rel);
    DiffPhraseSingleLine(d);
    ButOneLine(RelationPhrase(rel), DiffPhrase(d));
  }

  lemma ButOneLine(promise: string, breach: string)
    requires '\n' !in promise && '\n' !in breach
    ensures '\n' !in promise + ", but " + breach
  {
    assert '\n' !in ", but ";
    OneLine(promise, ", but ");
    OneLine(promise + ", but ", breach);
  }

  /** A reason sentence is one line unless the key it names spans lines. */
  lemma ReasonSingleLine(mm: Mismatch)
    requires NamedKey(mm).Some? ==> '\n' !in NamedKey(mm).value
    ensures '\n' !in Reason(mm)
  {
    match mm
    case WantedLength(n, l) => LengthReasonOneLine(n, l);
    case WantedNil => NilReasonOneLine();
    case WantedNotNil => NotNilReasonOneLine();
    case WantedEmpty => EmptyReasonOneLine();
    case WantedNotEmpty => NotEmptyReasonOneLine();
    case WantedDifferent => DifferentReasonOneLine();
    case WantedKey(k) => WantedKeyReasonOneLine(k);
    case UnwantedKey(k) => UnwantedKeyReasonOneLine(k);
    case WantedValue(v) => WantedValueReasonOneLine(v);
    case UnwantedValue(v) => UnwantedValueReasonOneLine(v);
    case WantedEntry(k, v, got) => EntryReasonOneLine(k, v, got);
    case Unrelated(rel, d, e) => UnrelatedReasonOneLine(rel, d, e);
  }

  /** The labelled lines of a diagnostic: the header, the actual map, then
      the expected map and the message when there are any. */
  function Layout(header: string, actual: string, expected: Option<string>, message: Option<string>): seq<string>
  {
    [header, "  actual: " + actual]
    + (if expected.Some? then ["expected: " + expected.value] else [])
    + (if message.Some? then [" message: " + message.value] else [])
  }

  /** The lines of the diagnostic, in order. */
  function DiagnosticLines(sev: Severity, mm: Mismatch, actual: GoMap, msg: Option<string>): seq<string>
  {
    Layout(Tag(sev) + "# Assertion failed: " + Reason(mm), RenderMap(actual),
           if mm.Unrelated? then Some(RenderMap(mm.expected)) else None,
           if msg.Some? then Some(Quote(msg.value)) else None)
  }

  /** Lines joined by line feeds, without a trailing one. */
  function JoinLines(ls: seq<string>): string
    decreases |ls|
  {
    if |ls| == 0 then ""
    else if |ls| == 1 then ls[0]
    else JoinLines(ls[..|ls| - 1]) + "\n" + ls[|ls| - 1]
  }

  /** The position of the last line feed in `s`, or -1 when there is none. */
  function LastLineFeed(s: string): (i: int)
    ensures -1 <= i < |s|
    ensures i >= 0 ==> s[i] == '\n'
    ensures forall j :: i < j < |s| ==> s[j] != '\n'
    decreases |s|
  {
    if |s| == 0 then -1
    else if s[|s| - 1] == '\n' then |s| - 1
    else LastLineFeed(s[..|s| - 1])
  }

  /** Splits text at each line feed, the last line first off; the partner
      of `JoinLines`. */
  function Lines(s: string): (ls: seq<string>)
    ensures |ls| > 0
    decreases |s|
  {
    var i := LastLineFeed(s);
    if i < 0 then [s] else Lines(s[..i]) + [s[i + 1..]]
  }

  lemma LinesOfLine(s: string)
    requires '\n' !in s
    ensures Lines(s) == [s]
  {
  }

  /** Appending a line adds it to the split. */
  lemma LinesSnoc(s: string, b: string)
    requires '\n' !in b
    ensures Lines(s + "\n" + b) == Lines(s) + [b]
  {
    var t := s + "\n" + b;
    forall j | |s| < j < |t|
      ensures t[j] != '\n'
    {
      assert t[j] == b[j - |s| - 1];
    }
    assert t[|s|] == '\n';
    assert LastLineFeed(t) == |s|;
    assert t[..|s|] == s && t[|s| + 1..] == b;
  }

  /** Splitting the joined text gives the lines back when none of them
      contains a line feed. */
  lemma {:induction false} LinesJoinLines(ls: seq<string>)
    requires |ls| > 0
    requires forall i :: 0 <= i < |ls| ==> '\n' !in ls[i]
    ensures Lines(JoinLines(ls)) == ls
    decreases |ls|
  {
    if |ls| == 1 {
      LinesOfLine(ls[0]);
    } else {
      var init := ls[..|ls| - 1];
      LinesJoinLines(init);
      LinesSnoc(JoinLines(init), ls[|ls| - 1]);
      assert ls == init + [ls[|ls| - 1]];
    }
  }

  /** The joined text begins with the first line. */
  lemma {:induction false} JoinLinesHead(ls: seq<string>)
    requires |ls| > 0
    ensures |ls[0]| <= |JoinLines(ls)| && JoinLines(ls)[..|ls[0]|] == ls[0]
    decreases |ls|
  {
    if |ls| > 1 {
      var init := ls[..|ls| - 1];
      JoinLinesHead(init);
      assert init[0] == ls[0];
      var t := JoinLines(init) + "\n" + ls[|ls| - 1];
      assert t[..|ls[0]|] == JoinLines(init)[..|ls[0]|];
    }
  }

  /** The complete diagnostic text; whatever follows, it opens with the
      severity tag and the reason. */
  function Diagnostic(sev: Severity, mm: Mismatch, actual: GoMap, msg: Option<string>): (r: string)
    ensures var header := Tag(sev) + "# Assertion failed: " + Reason(mm);
            |header| <= |r| && r[..|header|] == header
  {
    JoinLinesHead(DiagnosticLines(sev, mm, actual, msg));
    JoinLines(DiagnosticLines(sev, mm, actual, msg))
  }

  lemma LayoutSingleLine(header: string, actual: string, expected: Option<string>, message: Option<string>)
    requires '\n' !in header && '\n' !in actual
    requires expected.Some? ==> '\n' !in expected.value
    requires message.Some? ==> '\n' !in message.value
    ensures forall i :: 0 <= i < |Layout(header, actual, expected, message)| ==>
              '\n' !in Layout(header, actual, expected, message)[i]
  {
    assert '\n' !in "  actual: ";
    OneLine("  actual: ", actual);
    var shown := "  actual: " + actual;
    var ls := Layout(header, actual, expected, message);
    match expected {
      case Some(x) =>
        assert '\n' !in "expected: ";
        OneLine("expected: ", x);
        match message {
          case None => assert ls == [header, shown, "expected: " + x];
          case Some(t) =>
            assert '\n' !in " message: ";
            OneLine(" message: ", t);
            assert ls == [header, shown, "expected: " + x, " message: " + t];
        }
      case None =>
        match message {
          case None => assert ls == [header, shown];
          case Some(t) =>
            assert '\n' !in " message: ";
            OneLine(" message: ", t);
            assert ls == [header, shown, " message: " + t];
        }
    }
  }

  lemma HeaderSingleLine(sev: Severity, mm: Mismatch)
    requires NamedKey(mm).Some? ==> '\n' !in NamedKey(mm).value
    ensures '\n' !in Tag(sev) + "# Assertion failed: " + Reason(mm)
  {
    ReasonSingleLine(mm);
    TagOneLine(sev);
    HeaderOneLine(Tag(sev), Reason(mm));
  }

  lemma TagOneLine(sev: Severity)
    ensures '\n' !in Tag(sev)
  {
  }

  lemma HeaderOneLine(tag: string, reason: string)
    requires '\n' !in tag && '\n' !in reason
    ensures '\n' !in tag + "# Assertion failed: " + reason
  {
    assert '\n' !in "# Assertion failed: ";
    OneLine(tag, "# Assertion failed: ");
    OneLine(tag + "# Assertion failed: ", reason);
  }

  lemma DiagnosticLinesSingleLine(sev: Severity, mm: Mismatch, actual: GoMap, msg: Option<string>)
    requires NamedKey(mm).Some? ==> '\n' !in NamedKey(mm).value
    ensures forall i :: 0 <= i < |DiagnosticLines(sev, mm, actual, msg)| ==>
              '\n' !in DiagnosticLines(sev, mm, actual, msg)[i]
  {
    var reason := Reason(mm);
    HeaderSingleLine(sev, mm);
    var expected := if mm.Unrelated? then Some(RenderMap(mm.expected)) else None;
    var message := if msg.Some? then Some(Quote(msg.value)) else None;
    LayoutSingleLine(Tag(sev) + "# Assertion failed: " + reason, RenderMap(actual), expected, message);
    assert DiagnosticLines(sev, mm, actual, msg) ==
           Layout(Tag(sev) + "# Assertion failed: " + reason, RenderMap(actual), expected, message);
  }

  /** The layout: header, actual, then the expected line for two-map
      relations only, then the message line only when a message is given. */
  lemma DiagnosticLayout(sev: Severity, mm: Mismatch, actual: GoMap, msg: Option<string>)
    requires NamedKey(mm).Some? ==> '\n' !in NamedKey(mm).value
    ensures Lines(Diagnostic(sev, mm, actual, msg)) == DiagnosticLines(sev, mm, actual, msg)
  {
    DiagnosticLinesSingleLine(sev, mm, actual, msg);
    LinesJoinLines(DiagnosticLines(sev, mm, actual, msg));
  }
}
