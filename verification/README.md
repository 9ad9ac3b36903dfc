# Map assertions of go-spring/assert, modelled in Dafny

This project models the map-assertion engine of `go-spring/assert`, the
fluent chain `assert.ThatMap(t, m)` with its checks `Length`, `Nil`,
`NotNil`, `Empty`, `NotEmpty`, `Equal`, `NotEqual`, `ContainsKey(s)`,
`NotContainsKey(s)`, `ContainsValue(s)`, `NotContainsValue(s)`,
`ContainsKeyValue`, `SubsetOf`, `SupersetOf`, `HasSameKeys` and
`HasSameValues`, the `Must()` switch from `error` to `fatal`, and the exact
failure text handed to the test's failure sink. Only the checks exercised
by `map_test.go` are modelled. Where the tests leave the reported key or the
order of faults open, the model makes the canonical choice listed under
Decisions.

Modules, one per part of the engine:

- `GoMaps` — the captured value `map[string]int`, with `None` standing for
  the nil map. `Entries` is what a Go program observes: a nil map has no
  entries and length 0.
- `StringOrder` — the canonical key order (byte-wise lexicographic; on
  Unicode scalar values this equals code-point order). `Sorted` lists a key
  set in ascending order and `IsLeast` names its smallest element, which is
  how "the first offending key" is defined.
- `Comparator` — one pure function per check, returning `None` (pass) or
  exactly one mismatch. Each contract states the pass condition as a set or
  multiset property of the maps, independent of the scan the body performs,
  and names the reported key as the least offending one.
- `Render` — decimal integers, double-quoted strings, and maps as compact
  objects with ascending keys (`null` for nil, `{}` for empty). Integer text
  and quoting each come with a parser and a round-trip lemma.
- `Reporter` — the reason sentence of every mismatch and the four-line
  layout `<severity># Assertion failed: <reason>`, `  actual: …`,
  `expected: …` (two-map relations only), ` message: "…"` (only with a
  message). Splitting the text at line feeds gives the lines back.
- `Chain` — the fluent front end. The failure sink is modelled as the log of
  `(severity, text)` reports it received.
- `Scenarios` — every `TestMap_*` function replayed on the model. Each
  `…Scenario` lemma states the exact text of each call in the test, or the
  empty log. The `…Passes`, `…Breaks…` and `…Reason…` lemmas beside it, and
  the four shared `Reports…` lemmas, are its proof steps. Texts are
  written in the pieces the reporter concatenates, e.g. `"{" + "\"a\":1" + "}"` for `{"a":1}`.

Decisions:

- When several keys offend, the one reported is the least in byte-wise
  order. A Go map has no iteration order, and every test has a single
  faulty key, so the tests do not fix this choice.
- Equal, SubsetOf and SupersetOf report every absent key before any
  differing value. This is a two-stage scan over the sorted keys. A single
  pass that stops at the first key that is either absent or different would
  differ only when both kinds of fault exist; the tests exercise neither
  order.
- `Empty()` passes on nil (map_test.go:88) and `NotEmpty()` fails on nil
  (map_test.go:110): only `Nil`/`NotNil` and the renderer tell nil from
  `{}` (Chain.NilLikeEmpty).
- A consequence of the length-first scan is that `Equal` passes for a nil
  map against `{}`.

## Model

| member | source | states |
|---|---|---|
| Comparator.Length | map_test.go:26-44 | passes exactly when the map has `n` entries; a failure carries the wanted and the actual length |
| Comparator.Nil | map_test.go:46-63 | passes exactly on the nil map; `{"a":1}` fails with the nil reason |
| Comparator.NotNil | map_test.go:65-82 | passes exactly on a non-nil map, empty or not |
| Comparator.Empty | map_test.go:84-101 | passes exactly on the nil map and on `{}` |
| Comparator.NotEmpty | map_test.go:103-119 | passes exactly when some key is present, so nil and `{}` both fail |
| Comparator.Complements | map_test.go:26-267 | for every map, key and value: NotNil, NotEmpty, NotContainsKey and NotContainsValue pass exactly when their partner fails; Length 0 agrees with Empty; a passing ContainsKeyValue implies passing ContainsKey and ContainsValue, and with the key present its failure is a value mismatch |
| Comparator.NilIsEmpty | map_test.go:84-119 | nil and `{}` agree on Empty and NotEmpty and disagree only on Nil |
| Comparator.Equal | map_test.go:121-147 | passes exactly when both maps have the same entries (nil counts as no entries); differing lengths outrank everything; at equal length an absent key outranks a differing value; the named key is the least absent key, or the least key with different values |
| Comparator.EqualSymmetric | map_test.go:121-147 | whether Equal passes, and whether it blames the lengths, does not depend on the order of the two maps, although only the actual map's keys are scanned |
| Comparator.NotEqual | map_test.go:149-167 | passes exactly when the entries differ; a failure is always "expected maps to be different" |
| Comparator.ContainsKey | map_test.go:169-187 | passes exactly when the key is present; a failure names that key |
| Comparator.NotContainsKey | map_test.go:189-207 | passes exactly when the key is absent; a failure names that key |
| Comparator.ContainsValue | map_test.go:209-227 | passes exactly when some entry holds the value; a failure names that value |
| Comparator.NotContainsValue | map_test.go:229-247 | passes exactly when no entry holds the value; a failure names that value |
| Comparator.ContainsKeyValue | map_test.go:249-267 | passes exactly when the key is present with that value; a missing key gives the ContainsKey failure; a key present with another value gives a failure naming the key, the wanted value and the value found |
| Comparator.ContainsKeys | map_test.go:269-287 | passes exactly when ContainsKey passes for every listed key; a failure is ContainsKey's failure for the first listed key that is missing |
| Comparator.NotContainsKeys | map_test.go:289-307 | passes exactly when NotContainsKey passes for every listed key; a failure is NotContainsKey's failure for the first listed key that is present |
| Comparator.ContainsValues | map_test.go:309-327 | passes exactly when ContainsValue passes for every listed value; a failure is ContainsValue's failure for the first listed value that is missing |
| Comparator.NotContainsValues | map_test.go:329-347 | passes exactly when NotContainsValue passes for every listed value; a failure is NotContainsValue's failure for the first listed value that is present |
| Comparator.FirstStray | map_test.go:349-389 | the shared inclusion scan: nothing is reported exactly when every inner entry appears in the outer map; an absent key is reported exactly when some key is absent, and then it is the least one; otherwise it is the least key with different values |
| Comparator.SubsetOf | map_test.go:349-368 | passes exactly when every entry of actual appears in expected; an unexpected key is reported exactly when actual has a key expected lacks, and it is the least such key; otherwise the least key with different values is reported |
| Comparator.SupersetOf | map_test.go:370-389 | passes exactly when every entry of expected appears in actual; a missing key is reported exactly when expected has a key actual lacks, and it is the least such key; otherwise the least key with different values is reported |
| Comparator.SubsetSupersetDual | map_test.go:349-389 | `a` SubsetOf `e` passes exactly when `e` SupersetOf `a` passes; on failure both blame the same key, and one calls it unexpected exactly when the other calls it missing |
| Comparator.EqualIsMutualSubset | map_test.go:121-147 | Equal passes exactly when each map is a subset of the other |
| Comparator.HasSameKeys | map_test.go:391-410 | passes exactly when the key sets are equal; differing lengths are reported first; otherwise the least key of actual missing from expected is reported |
| Comparator.SameKeysIgnoresValues | map_test.go:391-396 | the outcome of HasSameKeys, including the reported key, depends only on the two key sets |
| Comparator.HasSameValues | map_test.go:412-431 | passes exactly when every value occurs equally often in both maps; differing lengths are reported first; otherwise only the generic "their values are different" |
| Comparator.ValueBagCount | map_test.go:412-431 | the multiset of a map's values holds each value as often as there are entries holding it, and its size is the map's length |
| Comparator.SameBagSameCounts | map_test.go:412-431 | two value multisets are equal exactly when every value occurs equally often in both maps; equal multisets imply equal lengths |
| Comparator.SameValuesIgnoresKeys | map_test.go:412-417 | the outcome of HasSameValues depends only on the two multisets of values, not on the keys that hold them |
| Comparator.SameValuesCountsDuplicates | map_test.go:412-431 | duplicate values must be matched one for one: `{k1:v,k2:v}` has the same values as `{j1:v,j2:v}` but not as `{j1:v,j2:w}` |
| Comparator.EqualImpliesSameKeysAndValues | map_test.go:391-431 | maps that are Equal pass both HasSameKeys and HasSameValues |
| Comparator.FirstIndexIsLeast | map_test.go:135-139 | scanning the ascending key list for the first offending key finds the least element of the offending set, and finds one exactly when that set is non-empty |
| StringOrder.Sorted | map_test.go:271-280 | the ascending listing of a key set has every key exactly once, in strictly increasing order |
| StringOrder.SortedUnique | map_test.go:395 | a strictly increasing listing of a key set is unique, so the order of the map literal does not matter |
| Render.IntToString | map_test.go:36 | the decimal text of an integer is non-empty, has no line feed, and starts with a minus sign exactly for negative integers |
| Render.Quote | map_test.go:43 | the quoted form of a message is one line, opened and closed by a double quote |
| Render.IntToStringRoundTrip | map_test.go:36 | the decimal text of every integer (a minus sign for negatives, no leading zeros) reads back to the same integer |
| Render.EscapeRoundTrip | map_test.go:43 | escaping a string and unescaping the result gives the string back |
| Render.QuoteRoundTrip | map_test.go:43 | the double-quoted form of every string reads back to that string |
| Render.RenderMap | map_test.go:110-118 | the text of a map never spans lines; it is `null` exactly for the nil map and `{}` exactly for the empty map |
| Render.RenderAscending | map_test.go:271-280 | a non-nil map renders as `{` followed by its `"key":value` members in ascending key order, comma-separated, and `}`, whatever order it was built in |
| Reporter.Reason | map_test.go:137-143 | the reason sentence names every key it reports verbatim between single quotes; Reporter.ReasonNamesIntegers covers the integers it reports, the `Scenarios.…Reason` lemmas fix the sentences for the arguments the tests use, and Reporter.ReasonSingleLine keeps it on one line |
| Reporter.ReasonNamesIntegers | map_test.go:219-264 | for every argument, the reason sentence names in decimal both lengths of a length failure (the actual length last), the value of a value failure, and the wanted and the found value of an entry failure, each set off by a space before and a comma, a space or the sentence's end after, as in the texts at map_test.go:36, 219, 239, 264, 319 and 339 |
| Reporter.Diagnostic | map_test.go:141-146 | the failure text always opens with `<severity># Assertion failed: <reason>`; Reporter.DiagnosticLayout fixes the lines after it |
| Reporter.ReasonSingleLine | map_test.go:36-43 | no reason sentence contains a line feed unless the key it names does |
| Reporter.LinesJoinLines | map_test.go:143-146 | joining lines without line feeds by line feeds and splitting the text at line feeds gives the lines back |
| Reporter.DiagnosticLinesSingleLine | map_test.go:143-146 | no line of a diagnostic contains a line feed when the named key has none |
| Reporter.DiagnosticLayout | map_test.go:141-146 | the diagnostic text splits into exactly the header line, the actual line, then the expected line for two-map relations and the message line when a message is given |
| Chain.ThatMap | map_test.go:30-37 | a fresh chain holds the captured map, reports at `error` and has reported nothing |
| Chain.Must | map_test.go:39-43 | `Must()` switches the chain to `fatal` and changes nothing else |
| Chain.MustIdempotent | map_test.go:39-43 | escalating twice is escalating once, and a check on an escalated chain stays `fatal` |
| Chain.Record | map_test.go:30-43 | a pass leaves the sink's log unchanged; a mismatch appends exactly one report at the chain's severity whose text is the diagnostic of that mismatch |
| Chain.Apply | map_test.go:30-43 | one chained call: the log is unchanged exactly when the check passes; otherwise exactly one report at the chain's severity is appended, with the diagnostic of the check's mismatch |
| Chain.Check | map_test.go:121-147 | each chained call goes to its own comparator; Chain.CheckHolds says when it passes, and Chain.CheckShowsExpected and Chain.NotEqualNegatesEqual say what its failure carries |
| Chain.CheckHolds | map_test.go:26-431 | every chained check passes exactly when it holds of the captured map's entries, stated per check independently of any scan: length, nil-ness, emptiness, entry equality, key and value membership, inclusion of key-value pairs, equal key sets, equal per-value counts |
| Chain.CheckShowsExpected | map_test.go:129-166 | a failure carries an expected map exactly for Equal, SubsetOf, SupersetOf, HasSameKeys and HasSameValues, and it is the map the check was given |
| Chain.NilLikeEmpty | map_test.go:84-119 | every check other than Nil and NotNil gives the nil map the same verdict and the same mismatch as `{}` |
| Chain.SingleMapChecksHideExpected | map_test.go:157-160 | checks other than the two-map relations never print an expected line |
| Chain.NotEqualNegatesEqual | map_test.go:149-167 | NotEqual fails exactly when Equal passes, and its failure prints no expected line |
| Chain.Do | map_test.go:39-43 | one step of a chain: `Must()` only raises the severity; a check appends one report at the current severity exactly when it fails |
| Chain.Run | map_test.go:30-43 | over a whole chain, reports accumulate one per failing check and none is removed; the chain ends `fatal` exactly when it started so or escalated, and every report after a fatal start is `fatal` |
| Scenarios.LengthScenario | map_test.go:26-44 | `{"a":1}` passes `Length(1)`; `Length(0)` reports the length sentence with the actual line, and under `Must()` with a message the `fatal` text with the message line |
| Scenarios.NilScenario | map_test.go:46-63 | nil passes `Nil()`; `{"a":1}` gives the exact `error` and `fatal` texts |
| Scenarios.NotNilScenario | map_test.go:65-82 | `{"a":1}` passes `NotNil()`; nil gives the exact texts with `actual: null` |
| Scenarios.EmptyScenario | map_test.go:84-101 | nil passes `Empty()`; `{"a":1}` gives the exact `error` and `fatal` texts |
| Scenarios.NotEmptyScenario | map_test.go:103-119 | `{"a":1}` passes `NotEmpty()`; nil fails with `actual: null`, and `{}` fails under `Must()` with `actual: {}` and the message |
| Scenarios.EqualScenario | map_test.go:121-147 | equal maps pass; against nil the lengths are blamed, against `{"b":2}` key `a` is missing, and against `{"a":2}` under `Must()` the values for key `a` differ; each text has its expected line |
| Scenarios.NotEqualScenario | map_test.go:149-167 | different maps pass; the same map gives the exact texts, without an expected line |
| Scenarios.ContainsKeyScenario | map_test.go:169-187 | a present key passes; key `b` gives the exact `error` and `fatal` texts |
| Scenarios.NotContainsKeyScenario | map_test.go:189-207 | an absent key passes; key `a` gives the exact texts |
| Scenarios.ContainsValueScenario | map_test.go:209-227 | a present value passes; value 2 gives the exact texts |
| Scenarios.NotContainsValueScenario | map_test.go:229-247 | an absent value passes; value 1 gives the exact texts |
| Scenarios.ContainsKeyValueScenario | map_test.go:249-267 | a matching entry passes; a missing key gives the ContainsKey text, and a wrong value under `Must()` names both values |
| Scenarios.ContainsKeysScenario | map_test.go:269-287 | `["a","b"]` passes on `{"a":1,"b":2}`; `["c"]` gives the exact texts |
| Scenarios.NotContainsKeysScenario | map_test.go:289-307 | `["c"]` passes; `["a"]` gives the exact texts |
| Scenarios.ContainsValuesScenario | map_test.go:309-327 | `[1,2]` passes; `[3]` gives the exact texts |
| Scenarios.NotContainsValuesScenario | map_test.go:329-347 | `[3]` passes; `[1]` gives the exact texts |
| Scenarios.SubsetOfScenario | map_test.go:349-368 | `{"a":1}` is a subset of `{"a":1,"b":2}`; the reverse reports the unexpected key `b`, and against `{"a":2}` the values for key `a` differ |
| Scenarios.SupersetOfScenario | map_test.go:370-389 | `{"a":1,"b":2}` is a superset of `{"a":1}`; the reverse reports the missing key `b`, and against `{"a":2}` the values for key `a` differ |
| Scenarios.HasSameKeysScenario | map_test.go:391-410 | `{"a":1,"b":2}` has the same keys as `{"b":3,"a":4}`; against `{"c":3}` the lengths are blamed, and against `{"b":2,"c":3}` key `a` is missing |
| Scenarios.HasSameValuesScenario | map_test.go:412-431 | `{"a":1,"b":2}` has the same values as `{"x":1,"y":2}`; against `{"c":3}` the lengths are blamed, and against `{"b":2,"c":3}` only "their values are different" is said |

## Left out

- The failure sink itself (`internal.MockTestingT`, `testing.T`, `Reset`, `String`) is modelled only as a log of reports. Aborting the test on `fatal` is the sink's job and is not modelled.
- `assert.ThatString` and every assertion kind other than maps are left out.
- Only `map[string]int` is modelled, which is the one instantiation the tests use. Other key and value types, nested values, deep equality and reflective rendering are left out.
- Go's `int` is 64 bits wide. The model uses unbounded integers; every value in the tests is small.
- Render.Quote escapes only the double quote, the backslash and the line feed. Other control characters and non-ASCII text are passed through unescaped; what the package does with them is not modelled.
- The user message is modelled as one string. How several message arguments are formatted into one is not shown in the tests.
- Keys in reason sentences appear between single quotes without escaping, as in every test.
- Reporter.DiagnosticLayout: requires that the key a reason names holds no line feed, because such a key would make the diagnostic span extra lines.
- Chain.Run: states per-report severities only for chains that start `fatal`. After a `Must()` in the middle of a chain the earlier reports stay `error`; Chain.Do states this step by step.
