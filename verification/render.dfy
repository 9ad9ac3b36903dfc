/** Canonical text of the values shown in a diagnostic: decimal integers,
    double-quoted strings and maps as compact JSON objects whose keys are
    listed in ascending order. */
module Render {
  import opened Wrappers
  import opened GoMaps
  import opened StringOrder

  predicate IsDigit(c: char)
  {
    '0' <= c <= '9'
  }

  predicate AllDigits(s: string)
  {
    forall i :: 0 <= i < |s| ==> IsDigit(s[i])
  }

  function DigitChar(d: nat): (c: char)
    requires d < 10
    ensures IsDigit(c) && (c as int) - ('0' as int) == d
  {
    (('0' as int) + d) as char
  }

  /** The numeric value of a string of decimal digits (0 for the empty string). */
  function DigitsValue(s: string): nat
    requires AllDigits(s)
    decreases |s|
  {
    if |s| == 0 then 0
    else DigitsValue(s[..|s| - 1]) * 10 + ((s[|s| - 1] as int) - ('0' as int))
  }

  /** Decimal text of a natural number, without leading zeros. */
  function NatToString(n: nat): (s: string)
    ensures |s| > 0 && AllDigits(s)
    ensures s[0] == '0' ==> n == 0 && s == "0"
    decreases n
  {
    if n < 10 then [DigitChar(n)]
    else NatToString(n / 10) + [DigitChar(n % 10)]
  }

  lemma {:induction false} NatToStringValue(n: nat)
    ensures DigitsValue(NatToString(n)) == n
    decreases n
  {
    var s := NatToString(n);
    if n >= 10 {
      NatToStringValue(n / 10);
      assert s[..|s| - 1] == NatToString(n / 10);
    }
  }

  /** Go's `%v`/`%d` text of an integer value. */
  function IntToString(i: int): (s: string)
    ensures |s| > 0 && '\n' !in s
    ensures i < 0 <==> s[0] == '-'
  {
    if i < 0 then "-" + NatToString(-i) else NatToString(i)
  }

  /** Reads back the decimal text of an integer; the independent partner of
      `IntToString`. */
  function ParseInt(s: string): (r: Option<int>)
    ensures r.Some? ==> |s| > 0
  {
    if |s| > 0 && s[0] == '-' then
      if |s| > 1 && AllDigits(s[1..]) then Some(-(DigitsValue(s[1..]) as int)) else None
    else if |s| > 0 && AllDigits(s) then Some(DigitsValue(s))
    else None
  }

  lemma IntToStringRoundTrip(i: int)
    ensures ParseInt(IntToString(i)) == Some(i)
  {
    if i < 0 {
      NatToStringValue(-i);
      assert IntToString(i)[1..] == NatToString(-i);
    } else {
      NatToStringValue(i);
    }
  }

  /** Escapes one character inside double quotes: the quote, the backslash
      and the line feed get a backslash escape; everything else is kept. */
  function EscapeChar(c: char): string
  {
    if c == '"' then "\\\""
    else if c == '\\' then "\\\\"
    else if c == '\n' then "\\n"
    else [c]
  }

  function Escape(s: string): (r: string)
    ensures '\n' !in r
    decreases |s|
  {
    if |s| == 0 then "" else EscapeChar(s[0]) + Escape(s[1..])
  }

  /** A string as a double-quoted literal, as it appears for map keys and
      for the user message. */
  function Quote(s: string): (r: string)
    ensures |r| >= 2 && r[0] == '"' && r[|r| - 1] == '"'
    ensures '\n' !in r
  {
    "\"" + Escape(s) + "\""
  }

  /** Undoes `Escape`; `None` for text `Escape` cannot produce. */
  function Unescape(t: string): Option<string>
    decreases |t|
  {
    if |t| == 0 then Some("")
    else if t[0] == '\\' then
      if |t| < 2 then None
      else
        var c := if t[1] == 'n' then '\n' else t[1];
        if c != '\n' && c != '"' && c != '\\' then None
        else match Unescape(t[2..])
          case None => None
          case Some(rest) => Some([c] + rest)
    else if t[0] == '"' || t[0] == '\n' then None
    else match Unescape(t[1..])
      case None => None
      case Some(rest) => Some([t[0]] + rest)
  }

  function Unquote(t: string): Option<string>
  {
    if |t| >= 2 && t[0] == '"' && t[|t| - 1] == '"' then Unescape(t[1..|t| - 1])
    else None
  }

  lemma UnescapeStep(c: char, t: string, rest: string)
    requires Unescape(t) == Some(rest)
    ensures Unescape(EscapeChar(c) + t) == Some([c] + rest)
  {
    var u := EscapeChar(c) + t;
    if c == '"' || c == '\\' || c == '\n' {
      assert u[0] == '\\' && u[2..] == t;
    } else {
      assert u[0] == c && u[1..] == t;
    }
  }

  lemma {:induction false} EscapeRoundTrip(s: string)
    ensures Unescape(Escape(s)) == Some(s)
    decreases |s|
  {
    if |s| > 0 {
      EscapeRoundTrip(s[1..]);
      UnescapeStep(s[0], Escape(s[1..]), s[1..]);
      assert s == [s[0]] + s[1..];
    }
  }

  lemma QuoteRoundTrip(s: string)
    ensures Unquote(Quote(s)) == Some(s)
  {
    var q := Quote(s);
    assert q[1..|q| - 1] == Escape(s);
    EscapeRoundTrip(s);
  }

  /** One `"key":value` member of a rendered object. */
  function Member(k: string, v: int): (r: string)
    ensures '\n' !in r
  {
    Quote(k) + ":" + IntToString(v)
  }

  /** The members for the keys `ks`, in that order, separated by commas. */
  function Members(ks: seq<string>, m: map<string, int>): (r: string)
    requires forall i :: 0 <= i < |ks| ==> ks[i] in m
    ensures '\n' !in r
    decreases |ks|
  {
    if |ks| == 0 then ""
    else if |ks| == 1 then Member(ks[0], m[ks[0]])
    else Member(ks[0], m[ks[0]]) + "," + Members(ks[1..], m)
  }

  /** The canonical text of a captured map: `null` for the nil map, else a
      compact object listing the entries in ascending key order. */
  function RenderMap(g: GoMap): (r: string)
    ensures '\n' !in r
    ensures g.None? <==> r == "null"
    ensures g == Some(map[]) <==> r == "{}"
  {
    match g
    case None => "null"
    case Some(m) =>
      var ks := Sorted(m.Keys);
      var body := Members(ks, m);
      assert |ks| > 0 ==> |Member(ks[0], m[ks[0]])| > 0;
      assert |ks| > 0 ==> |body| > 0;
      assert |ks| == 0 ==> m == map[];
      "{" + body + "}"
  }

  /** Rendering is deterministic: any strictly increasing listing of the
      keys yields the same text, however the map was built. */
  lemma RenderAscending(m: map<string, int>, ks: seq<string>)
    requires StrictlyIncreasing(ks)
    requires forall k :: k in ks <==> k in m
    ensures RenderMap(Some(m)) == "{" + Members(ks, m) + "}"
  {
    SortedUnique(ks, m.Keys);
  }
}
