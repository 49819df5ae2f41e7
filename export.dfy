/**
 * The CSV exporter (js/export.js): data points and statistics objects as
 * ordered key/value lists, cell escaping in the style of RFC 4180
 * section 2 (rules 6 and 7), the sorted header union, statistics lines in
 * a fixed order, and the file names. A download is modelled as the file
 * it would produce.
 */
module Export {
  import opened Wrappers
  import opened Seqs
  import opened Records
  import opened Statistics

  /** A JavaScript property value: null (or undefined), a string, or an integer. */
  datatype Value = Null | Text(s: string) | Number(n: int)

  /** An object as its properties in insertion order. */
  type Object = seq<(string, Value)>

  /** A downloaded file. */
  datatype File = File(name: string, content: string)

  function Keys(o: Object): (ks: seq<string>)
    ensures |ks| == |o|
    ensures forall i :: 0 <= i < |o| ==> ks[i] == o[i].0
  {
    Map(o, (e: (string, Value)) => e.0)
  }

  /** An object literal whose properties are `ks` with the values `vs`. */
  function Zip(ks: seq<string>, vs: seq<Value>): (o: Object)
    requires |ks| == |vs|
    ensures Keys(o) == ks
    ensures forall i :: 0 <= i < |ks| ==> o[i] == (ks[i], vs[i])
  {
    seq(|ks|, i requires 0 <= i < |ks| => (ks[i], vs[i]))
  }

  /** `o[key]`: the value of the first property with that key, or undefined. */
  function Get(o: Object, key: string): (v: Option<Value>)
    ensures v.None? <==> key !in Keys(o)
  {
    if o == [] then None
    else if o[0].0 == key then Some(o[0].1)
    else
      assert Keys(o) == [o[0].0] + Keys(o[1..]);
      Get(o[1..], key)
  }

  /** The value read is that of the first property carrying the key. */
  lemma {:induction false} GetFirst(o: Object, key: string, i: nat)
    requires i < |o| && o[i].0 == key
    requires forall j :: 0 <= j < i ==> o[j].0 != key
    ensures Get(o, key) == Some(o[i].1)
  {
    if i > 0 {
      assert o[0].0 != key;
      GetFirst(o[1..], key, i - 1);
    }
  }

  // ---------------------------------------------------------------------
  // Number formatting (`String(n)` on an integer)
  // ---------------------------------------------------------------------

  function DigitChar(d: nat): char
    requires d < 10
  {
    "0123456789"[d]
  }

  predicate IsDigitChar(c: char) { '0' <= c <= '9' }

  function NatToString(n: nat): (s: string)
    ensures s != []
    ensures forall i :: 0 <= i < |s| ==> IsDigitChar(s[i])
  {
    if n < 10 then [DigitChar(n)] else NatToString(n / 10) + [DigitChar(n % 10)]
  }

  function IntToString(n: int): (s: string)
    ensures s != []
    ensures forall i :: 0 <= i < |s| ==> IsDigitChar(s[i]) || (i == 0 && s[i] == '-')
  {
    if n < 0 then "-" + NatToString(-n) else NatToString(n)
  }

  /** Reading digits back: the inverse of `NatToString`. */
  function ParseNat(s: string): nat
    requires forall i :: 0 <= i < |s| ==> IsDigitChar(s[i])
  {
    if s == [] then 0
    else
      assert IsDigitChar(s[|s| - 1]);
      ParseNat(s[..|s| - 1]) * 10 + (s[|s| - 1] as int - '0' as int)
  }

  lemma {:induction false} NatToStringRoundTrip(n: nat)
    ensures ParseNat(NatToString(n)) == n
  {
    if n >= 10 {
      var s := NatToString(n);
      assert s[..|s| - 1] == NatToString(n / 10);
      NatToStringRoundTrip(n / 10);
    }
  }

  /** The text a value stands for in a cell or a statistics line. */
  function ValueText(v: Value): string
    requires !v.Null?
  {
    match v
    case Text(s) => s
    case Number(n) => IntToString(n)
  }

  // ---------------------------------------------------------------------
  // Cell escaping (js/export.js:159-175)
  // ---------------------------------------------------------------------

  /** The field must be quoted: it holds a comma, a double quote or a line feed. */
  predicate NeedsQuoting(s: string) {
    ',' in s || '"' in s || '\n' in s
  }

  /** `s.replace(/"/g, '""')`. */
  function DoubleQuotes(s: string): (r: string)
    ensures '"' !in s ==> r == s
  {
    if s == [] then [] else (if s[0] == '"' then "\"\"" else [s[0]]) + DoubleQuotes(s[1..])
  }

  /** Collapses every `""` to `"`: the inverse of `DoubleQuotes`. */
  function UndoubleQuotes(s: string): string {
    if s == [] then []
    else if |s| >= 2 && s[0] == '"' && s[1] == '"' then "\"" + UndoubleQuotes(s[2..])
    else [s[0]] + UndoubleQuotes(s[1..])
  }

  lemma {:induction false} UndoubleDoubleQuotes(s: string)
    ensures UndoubleQuotes(DoubleQuotes(s)) == s
  {
    if s != [] {
      UndoubleDoubleQuotes(s[1..]);
      if s[0] == '"' {
        assert DoubleQuotes(s) == "\"\"" + DoubleQuotes(s[1..]);
        assert DoubleQuotes(s)[2..] == DoubleQuotes(s[1..]);
      } else {
        assert DoubleQuotes(s) == [s[0]] + DoubleQuotes(s[1..]);
        assert DoubleQuotes(s)[1..] == DoubleQuotes(s[1..]);
      }
    }
  }

  /** One cell of a data row: null or undefined is empty; a field that needs it is quoted with quotes doubled. */
  function EscapeCell(v: Option<Value>): (cell: string)
    ensures v.None? || v == Some(Null) ==> cell == ""
    ensures v.Some? && !v.value.Null? && !NeedsQuoting(ValueText(v.value)) ==> cell == ValueText(v.value)
    ensures v.Some? && !v.value.Null? && NeedsQuoting(ValueText(v.value)) ==>
              |cell| >= 2 && cell[0] == '"' && cell[|cell| - 1] == '"'
  {
    if v.None? || v.value.Null? then ""
    else
      var stringValue := ValueText(v.value);
      if NeedsQuoting(stringValue) then "\"" + DoubleQuotes(stringValue) + "\"" else stringValue
  }

  /** How a reader decodes one cell: strip the outer quotes of a quoted field and collapse `""`. */
  function UnescapeCell(cell: string): string {
    if |cell| >= 2 && cell[0] == '"' && cell[|cell| - 1] == '"' then UndoubleQuotes(cell[1..|cell| - 1])
    else cell
  }

  /** Decoding an escaped cell gives back the text of the value. */
  lemma EscapeRoundTrip(v: Value)
    requires !v.Null?
    ensures UnescapeCell(EscapeCell(Some(v))) == ValueText(v)
  {
    var s := ValueText(v);
    if NeedsQuoting(s) {
      var cell := EscapeCell(Some(v));
      assert cell[1..|cell| - 1] == DoubleQuotes(s);
      UndoubleDoubleQuotes(s);
    } else if |s| >= 2 {
      assert s[0] in s;
    }
  }

  /**
   * A carriage return does not make a field quoted: the quoting test counts
   * only `\n` as a line break, so text holding `\r` but no comma, quote or
   * line feed is written bare.
   */
  lemma CarriageReturnNotQuoted(s: string)
    requires '\r' in s && ',' !in s && '"' !in s && '\n' !in s
    ensures EscapeCell(Some(Text(s))) == s
  {
  }

  // ---------------------------------------------------------------------
  // Header and rows (js/export.js:146-177)
  // ---------------------------------------------------------------------

  /** The distinct keys of all points, in the order a `Set` first sees them. */
  function KeyUnion(data: seq<Object>): (ks: seq<string>) {
    if data == [] then [] else AddKeys(KeyUnion(data[..|data| - 1]), Keys(data[|data| - 1]))
  }

  /** Each key is in the union at most once. */
  lemma {:induction false} KeyUnionNoRepeats(data: seq<Object>)
    ensures forall k :: multiset(KeyUnion(data))[k] <= 1
  {
    if data != [] {
      KeyUnionNoRepeats(data[..|data| - 1]);
      AddKeysNoRepeats(KeyUnion(data[..|data| - 1]), Keys(data[|data| - 1]));
    }
  }

  /** A key is in the union exactly when some point has it. */
  lemma {:induction false} KeyUnionMembers(data: seq<Object>, k: string)
    ensures k in KeyUnion(data) <==> exists p :: 0 <= p < |data| && k in Keys(data[p])
  {
    if data != [] {
      var init := data[..|data| - 1];
      KeyUnionMembers(init, k);
      AddKeysMembers(KeyUnion(init), Keys(data[|data| - 1]), k);
      if exists p :: 0 <= p < |data| && k in Keys(data[p]) {
        var p :| 0 <= p < |data| && k in Keys(data[p]);
        if p < |data| - 1 {
          assert init[p] == data[p];
        }
      }
      if exists p :: 0 <= p < |init| && k in Keys(init[p]) {
        var p :| 0 <= p < |init| && k in Keys(init[p]);
        assert data[p] == init[p];
      }
    }
  }

  /** `keys.forEach(key => allKeys.add(key))`: each key not yet present is appended. */
  function AddKeys(ks: seq<string>, keys: seq<string>): seq<string>
    decreases |keys|
  {
    if keys == [] then ks
    else AddKeys(if keys[0] in ks then ks else ks + [keys[0]], keys[1..])
  }

  /** Adding keys yields exactly the old keys and the new ones. */
  lemma {:induction false} AddKeysMembers(ks: seq<string>, keys: seq<string>, k: string)
    ensures k in AddKeys(ks, keys) <==> k in ks || k in keys
    decreases |keys|
  {
    if keys != [] {
      var next := if keys[0] in ks then ks else ks + [keys[0]];
      AddKeysMembers(next, keys[1..], k);
      assert k in keys <==> k == keys[0] || k in keys[1..] by {
        assert keys == [keys[0]] + keys[1..];
      }
    }
  }

  /** Adding keys keeps the old keys first, in their order. */
  lemma {:induction false} AddKeysKeepsPrefix(ks: seq<string>, keys: seq<string>)
    ensures var r := AddKeys(ks, keys); |ks| <= |r| && r[..|ks|] == ks
    decreases |keys|
  {
    if keys != [] {
      var next := if keys[0] in ks then ks else ks + [keys[0]];
      AddKeysKeepsPrefix(next, keys[1..]);
      var r := AddKeys(ks, keys);
      assert r[..|ks|] == r[..|next|][..|ks|];
    }
  }

  /** A set stays a set: adding keys to a repeat-free list leaves it repeat-free. */
  lemma {:induction false} AddKeysNoRepeats(ks: seq<string>, keys: seq<string>)
    requires forall k :: multiset(ks)[k] <= 1
    ensures forall k :: multiset(AddKeys(ks, keys))[k] <= 1
    decreases |keys|
  {
    if keys != [] {
      var next := if keys[0] in ks then ks else ks + [keys[0]];
      assert forall k :: multiset(next)[k] <= 1;
      AddKeysNoRepeats(next, keys[1..]);
    }
  }

  /** The key-collection loop. */
  method CollectKeys(data: seq<Object>) returns (allKeys: seq<string>)
    ensures allKeys == KeyUnion(data)
  {
    allKeys := [];
    var p := 0;
    while p < |data|
      invariant 0 <= p <= |data|
      invariant allKeys == KeyUnion(data[..p])
    {
      assert data[..p + 1][..p] == data[..p];
      var keys := Keys(data[p]);
      var before := allKeys;
      var j := 0;
      while j < |keys|
        invariant 0 <= j <= |keys|
        invariant AddKeys(allKeys, keys[j..]) == AddKeys(before, keys)
      {
        assert keys[j..][1..] == keys[j + 1..];
        if keys[j] !in allKeys {
          allKeys := allKeys + [keys[j]];
        }
        j := j + 1;
      }
      assert keys[j..] == [];
      p := p + 1;
    }
    assert data[..p] == data;
  }

  /** Code-unit order on strings, as the default `sort()` compares them. */
  predicate StrLe(a: string, b: string) {
    a == [] || (b != [] && (a[0] < b[0] || (a[0] == b[0] && StrLe(a[1..], b[1..]))))
  }

  lemma {:induction false} StrLeTotal(a: string, b: string)
    ensures StrLe(a, b) || StrLe(b, a)
  {
    if a != [] && b != [] && a[0] == b[0] {
      StrLeTotal(a[1..], b[1..]);
    }
  }

  lemma {:induction false} StrLeAntisymmetric(a: string, b: string)
    requires StrLe(a, b) && StrLe(b, a)
    ensures a == b
  {
    if a != [] && b != [] {
      StrLeAntisymmetric(a[1..], b[1..]);
      assert a == [a[0]] + a[1..] && b == [b[0]] + b[1..];
    }
  }

  ghost predicate SortedStrings(s: seq<string>) {
    forall i :: 0 < i < |s| ==> StrLe(s[i - 1], s[i])
  }

  function InsertString(x: string, s: seq<string>): (r: seq<string>)
    requires SortedStrings(s)
    ensures SortedStrings(r)
    ensures multiset(r) == multiset(s) + multiset{x}
    ensures r[0] == x || (s != [] && r[0] == s[0])
  {
    if s == [] then [x]
    else if StrLe(x, s[0]) then [x] + s
    else
      StrLeTotal(x, s[0]);
      assert s == [s[0]] + s[1..];
      [s[0]] + InsertString(x, s[1..])
  }

  /** `Array.from(allKeys).sort()`. */
  function SortStrings(s: seq<string>): (r: seq<string>)
    ensures SortedStrings(r)
    ensures multiset(r) == multiset(s)
  {
    if s == [] then []
    else
      assert s == s[..|s| - 1] + [s[|s| - 1]];
      InsertString(s[|s| - 1], SortStrings(s[..|s| - 1]))
  }

  lemma AdjacentRepeatCounted(s: seq<string>, i: int)
    requires 0 < i < |s|
    ensures s[i - 1] == s[i] ==> multiset(s)[s[i]] >= 2
  {
    assert s == s[..i - 1] + [s[i - 1], s[i]] + s[i + 1..];
  }

  /** A sorted list without repeats is strictly increasing. */
  lemma SortedDistinctIsStrict(s: seq<string>)
    requires SortedStrings(s)
    requires forall k :: multiset(s)[k] <= 1
    ensures forall i :: 0 < i < |s| ==> StrLe(s[i - 1], s[i]) && s[i - 1] != s[i]
  {
    forall i | 0 < i < |s|
      ensures s[i - 1] != s[i]
    {
      AdjacentRepeatCounted(s, i);
    }
  }

  /** The header row's columns. */
  function Headers(data: seq<Object>): seq<string> {
    SortStrings(KeyUnion(data))
  }

  /** The header is sorted, repeats no key, and holds exactly the keys of the points. */
  lemma HeadersAreSortedUnion(data: seq<Object>)
    ensures var h := Headers(data);
            && (forall i :: 0 < i < |h| ==> StrLe(h[i - 1], h[i]) && h[i - 1] != h[i])
            && (forall k :: k in h <==> exists p :: 0 <= p < |data| && k in Keys(data[p]))
  {
    var h := Headers(data);
    var u := KeyUnion(data);
    assert multiset(h) == multiset(u);
    KeyUnionNoRepeats(data);
    SortedDistinctIsStrict(h);
    forall k
      ensures k in h <==> exists p :: 0 <= p < |data| && k in Keys(data[p])
    {
      KeyUnionMembers(data, k);
      assert (k in h <==> k in multiset(h)) && (k in u <==> k in multiset(u));
    }
  }

  /** `headers.join(",")` and friends. */
  function Join(parts: seq<string>, sep: string): string {
    if parts == [] then ""
    else if |parts| == 1 then parts[0]
    else Join(parts[..|parts| - 1], sep) + sep + parts[|parts| - 1]
  }

  /** The cells of a data row: one per header, in header order. */
  function RowCells(headers: seq<string>, point: Object): (cells: seq<string>)
    ensures |cells| == |headers|
    ensures forall i :: 0 <= i < |headers| ==> cells[i] == EscapeCell(Get(point, headers[i]))
  {
    Map(headers, (h: string) => EscapeCell(Get(point, h)))
  }

  function RowLine(headers: seq<string>, point: Object): string {
    Join(RowCells(headers, point), ",") + "\n"
  }

  /** The data rows, one line per point in order. */
  function RowsText(headers: seq<string>, data: seq<Object>): string {
    if data == [] then "" else RowsText(headers, data[..|data| - 1]) + RowLine(headers, data[|data| - 1])
  }

  // ---------------------------------------------------------------------
  // Statistics lines (js/export.js:179-196, 218-279)
  // ---------------------------------------------------------------------

  /** `labels[key] || key`. */
  function Label(labels: map<string, string>, key: string): (l: string)
    ensures key in labels && labels[key] != "" ==> l == labels[key]
    ensures key !in labels || labels[key] == "" ==> l == key
  {
    if key in labels && labels[key] != "" then labels[key] else key
  }

  /** `${label},${value ?? "N/A"}`. */
  function StatsLine(labels: map<string, string>, key: string, value: Value): (line: string)
    ensures value.Null? ==> line == Label(labels, key) + ",N/A"
    ensures !value.Null? ==> line == Label(labels, key) + "," + ValueText(value)
  {
    Label(labels, key) + "," + (if value.Null? then "N/A" else ValueText(value))
  }

  /** The keys of `order` the statistics object has, in the order's order. */
  function PresentKeys(order: seq<string>, stats: Object): (ks: seq<string>)
    ensures forall i :: 0 <= i < |ks| ==> ks[i] in order && ks[i] in Keys(stats)
    ensures forall i :: 0 <= i < |order| && order[i] in Keys(stats) ==> order[i] in ks
  {
    Filter(order, (key: string) => key in Keys(stats))
  }

  /** `stats[key]` for a present key; null otherwise. */
  function Lookup(stats: Object, key: string): Value {
    Get(stats, key).GetOr(Null)
  }

  /** The statistics lines: one per key of `order` the object has, in the order's order. */
  function StatsLines(order: seq<string>, labels: map<string, string>, stats: Object): seq<string> {
    if order == [] then []
    else
      var key := order[|order| - 1];
      StatsLines(order[..|order| - 1], labels, stats) +
      (if key in Keys(stats) then [StatsLine(labels, key, Lookup(stats, key))] else [])
  }

  /** Line i is the line of the i-th present key: no key is skipped, repeated or reordered. */
  lemma {:induction false} StatsLinesFollowOrder(order: seq<string>, labels: map<string, string>, stats: Object)
    ensures var lines := StatsLines(order, labels, stats);
            var present := PresentKeys(order, stats);
            && |lines| == |present|
            && forall i :: 0 <= i < |lines| ==> lines[i] == StatsLine(labels, present[i], Lookup(stats, present[i]))
  {
    if order != [] {
      StatsLinesFollowOrder(order[..|order| - 1], labels, stats);
    }
  }

  /** Lines each followed by a line feed. */
  function Lines(lines: seq<string>): string {
    if lines == [] then "" else Lines(lines[..|lines| - 1]) + lines[|lines| - 1] + "\n"
  }

  lemma LinesSnoc(lines: seq<string>, line: string)
    ensures Lines(lines + [line]) == Lines(lines) + line + "\n"
  {
    assert (lines + [line])[..|lines|] == lines;
  }

  const StatsHeader: string := "Statistic,Value\n"
  const StatsBanner: string := "\n\n=== STATISTICS ===\n"

  lemma StatsLinesStep(order: seq<string>, labels: map<string, string>, stats: Object, i: int)
    requires 0 <= i < |order|
    ensures StatsLines(order[..i + 1], labels, stats) == StatsLines(order[..i], labels, stats) +
            (if order[i] in Keys(stats) then [StatsLine(labels, order[i], Lookup(stats, order[i]))] else [])
  {
    assert order[..i + 1][..i] == order[..i];
  }

  /** The statistics-line loop: the line of every present key, in order. */
  method WriteStatsLines(order: seq<string>, labels: map<string, string>, stats: Object) returns (text: string)
    ensures text == Lines(StatsLines(order, labels, stats))
  {
    text := "";
    var i := 0;
    while i < |order|
      invariant 0 <= i <= |order|
      invariant text == Lines(StatsLines(order[..i], labels, stats))
    {
      var key := order[i];
      StatsLinesStep(order, labels, stats, i);
      if key in Keys(stats) {
        var line := StatsLine(labels, key, Lookup(stats, key));
        LinesSnoc(StatsLines(order[..i], labels, stats), line);
        text := text + line + "\n";
        assert text == Lines(StatsLines(order[..i + 1], labels, stats));
      } else {
        assert StatsLines(order[..i + 1], labels, stats) == StatsLines(order[..i], labels, stats);
      }
      i := i + 1;
    }
    assert order[..i] == order;
  }

  const SartStatsOrder: seq<string> := [
    "totalTrials", "goTrialsCount", "noGoTrialsCount", "totalAccuracy", "goAccuracy", "noGoAccuracy",
    "correctGoTrialsCount", "correctNoGoTrials", "commissionErrors", "omissionErrors",
    "commissionErrorsPercent", "omissionErrorsPercent", "meanRT_correctGo", "postErrorSlowingMean",
    "postErrorSlowingMedian", "postErrorSlowingCount", "sdRT", "medianRT", "maxStreak", "fastRTRate",
    "rtDriftCorrelation", "rtDriftHalfDiff", "totalTime", "correctResponses", "incorrectResponses",
    "meanRT_allGo"]

  const NBackStatsOrder: seq<string> := [
    "totalTrials", "matchTrialsCount", "nonMatchTrialsCount", "totalAccuracy", "matchAccuracy",
    "nonMatchAccuracy", "correctMatchResponses", "correctNonMatchResponses", "falseAlarms", "misses",
    "dPrime", "criterionC", "hitRate", "falseAlarmRate", "meanRT_correctMatch", "sdRT", "medianRT",
    "maxStreak", "rtDifferenceHitVsFalseAlarm", "learningTrend", "totalTime", "correctResponses",
    "incorrectResponses"]

  const SartStatsLabels: map<string, string> := map[
    "totalTrials" := "Celkový počet trialov",
    "goTrialsCount" := "Počet go trialov",
    "noGoTrialsCount" := "Počet no go trialov",
    "totalAccuracy" := "Celková úspešnosť (%)",
    "goAccuracy" := "Úspešnosť pri go trialov (%)",
    "noGoAccuracy" := "Úspešnosť pri nogo trialov (%)",
    "correctGoTrialsCount" := "Počet správnych go trialov",
    "correctNoGoTrials" := "Počet správnych no go trialov",
    "commissionErrors" := "Commission errors",
    "omissionErrors" := "Omission errors",
    "commissionErrorsPercent" := "Commission errors (%)",
    "omissionErrorsPercent" := "Omission errors (%)",
    "meanRT_correctGo" := "Priemerný čas pri správnych go trialov (ms)",
    "postErrorSlowingMean" := "Post-error slowing - mean (ms)",
    "postErrorSlowingMedian" := "Post-error slowing - median (ms)",
    "postErrorSlowingCount" := "Post-error slowing - počet prípadov",
    "sdRT" := "Štandardná odchýlka reakčného času (ms)",
    "medianRT" := "Medián reakčného času (ms)",
    "maxStreak" := "Maxstreak",
    "fastRTRate" := "Fast RT rate - odpovede < 250ms (%)",
    "rtDriftCorrelation" := "RT drift - korelácia",
    "rtDriftHalfDiff" := "RT drift - rozdiel polovíc (ms)",
    "totalTime" := "Celkový čas trvania (s)",
    "correctResponses" := "Celkový počet správnych odpovedí",
    "incorrectResponses" := "Celkový počet nesprávnych odpovedí",
    "meanRT_allGo" := "Priemerný čas pri všetkých go trialov (ms)"]

  const NBackStatsLabels: map<string, string> := map[
    "totalTrials" := "Celkový počet trialov",
    "matchTrialsCount" := "Počet match situácii",
    "nonMatchTrialsCount" := "Počet nonmatch situácii",
    "totalAccuracy" := "Celková úspešnosť (%)",
    "matchAccuracy" := "Úspešnosť pri match (%)",
    "nonMatchAccuracy" := "Úspešnosť pri non match (%)",
    "correctMatchResponses" := "Počet správnych odpovedí match",
    "correctNonMatchResponses" := "Počet správnych odpovedí nonmatch",
    "falseAlarms" := "False Alarm",
    "misses" := "Misses",
    "dPrime" := "d-Prime",
    "criterionC" := "Criterion C",
    "hitRate" := "Hit Rate (%)",
    "falseAlarmRate" := "False Alarm Rate (%)",
    "meanRT_correctMatch" := "Priemerný čas správnych odpovedí pri match (ms)",
    "sdRT" := "Štandardná odchýlka reakčného času (ms)",
    "medianRT" := "Medián reakčného času (ms)",
    "maxStreak" := "Najväčší streak správnych odpovedí",
    "rtDifferenceHitVsFalseAlarm" := "RT difference hit vs. false alarm (ms)",
    "learningTrend" := "Learning/trend across trials (%)",
    "totalTime" := "Celkový čas testu (s)",
    "correctResponses" := "Počet správnych odpovedí",
    "incorrectResponses" := "Počet nesprávnych odpovedí"]

  function StatsOrder(testName: string): seq<string> {
    if testName == SartName then SartStatsOrder else NBackStatsOrder
  }

  function StatsLabels(testName: string): map<string, string> {
    if testName == SartName then SartStatsLabels else NBackStatsLabels
  }

  // ---------------------------------------------------------------------
  // File names (js/export.js:204-205, 239, 267)
  // ---------------------------------------------------------------------

  function LowerChar(c: char): char {
    if 'A' <= c <= 'Z' then (c as int + 32) as char else c
  }

  /** `toLowerCase()` on ASCII letters. */
  function LowerAscii(s: string): (r: string)
    ensures |r| == |s|
    ensures forall i :: 0 <= i < |s| ==> r[i] == LowerChar(s[i])
  {
    if s == [] then [] else [LowerChar(s[0])] + LowerAscii(s[1..])
  }

  /** `s.replace(from, to)` with a one-character string pattern: only the first occurrence. */
  function ReplaceFirst(s: string, from: char, to: char): (r: string)
    ensures |r| == |s|
    ensures forall j :: 0 <= j < |s| ==> r[j] == if j == IndexOf(s, from) then to else s[j]
  {
    if s == [] then []
    else if s[0] == from then [to] + s[1..]
    else
      var rest := ReplaceFirst(s[1..], from, to);
      assert IndexOf(s, from) == if IndexOf(s[1..], from) == -1 then -1 else IndexOf(s[1..], from) + 1;
      [s[0]] + rest
  }

  /** The trial-data file of a test. */
  function TestFileName(testName: string, subjectId: string): string {
    ReplaceFirst(LowerAscii(testName), '-', '_') + "_" + subjectId + ".csv"
  }

  function StatsFileName(testName: string, subjectId: string): string {
    (if testName == SartName then "sart_" else "nback_") + subjectId + ".csv"
  }

  /** The SART files share one name: `sart_<id>.csv`. */
  lemma SartFileNames(subjectId: string)
    ensures TestFileName(SartName, subjectId) == "sart_" + subjectId + ".csv"
    ensures StatsFileName(SartName, subjectId) == TestFileName(SartName, subjectId)
  {
    var stem := ReplaceFirst(LowerAscii(SartName), '-', '_');
    assert stem == "sart" by {
      LowerNames();
      ReplaceNames();
    }
    assert TestFileName(SartName, subjectId) == stem + "_" + subjectId + ".csv";
    assert stem + "_" == "sart_";
  }

  /** N-back trial data goes to `n_back_<id>.csv` but its statistics to `nback_<id>.csv`. */
  lemma NBackFileNames(subjectId: string)
    ensures TestFileName(NBackName, subjectId) == "n_back_" + subjectId + ".csv"
    ensures StatsFileName(NBackName, subjectId) == "nback_" + subjectId + ".csv"
    ensures StatsFileName(NBackName, subjectId) != TestFileName(NBackName, subjectId)
  {
    NBackTestFileName(subjectId);
    var statsName := StatsFileName(NBackName, subjectId);
    assert statsName == "nback_" + subjectId + ".csv";
    assert statsName[1] == 'b';
  }

  lemma NBackTestFileName(subjectId: string)
    ensures TestFileName(NBackName, subjectId) == "n_back_" + subjectId + ".csv"
  {
    var stem := ReplaceFirst(LowerAscii(NBackName), '-', '_');
    assert stem == "n_back" by {
      LowerNames();
      ReplaceNames();
    }
    assert TestFileName(NBackName, subjectId) == stem + "_" + subjectId + ".csv";
    assert stem + "_" == "n_back_";
  }

  lemma ReplaceNames()
    ensures ReplaceFirst("n-back", '-', '_') == "n_back"
    ensures ReplaceFirst("sart", '-', '_') == "sart"
  {
    assert "n-back"[0] != '-' && "n-back"[1] == '-';
    assert "n-back"[1..][1..] == "back";
    assert '-' !in "sart";
  }

  lemma LowerNames()
    ensures LowerAscii(SartName) == "sart"
    ensures LowerAscii(NBackName) == "n-back"
  {
    assert LowerAscii(SartName)[0] == 's';
  }

  // ---------------------------------------------------------------------
  // Whole files
  // ---------------------------------------------------------------------

  /** The statistics section of a trial-data file, or nothing. */
  function StatsSection(testName: string, testStats: Option<Object>): string {
    if testStats.None? then ""
    else StatsBanner + StatsHeader + Lines(StatsLines(StatsOrder(testName), StatsLabels(testName), testStats.value))
  }

  /** What `exportTestData` downloads. */
  function TestFile(data: seq<Object>, testName: string, subjectId: string, testStats: Option<Object>): File {
    var headers := Headers(data);
    File(TestFileName(testName, subjectId),
         Join(headers, ",") + "\n" + RowsText(headers, data) + StatsSection(testName, testStats))
  }

  lemma RowsStep(headers: seq<string>, data: seq<Object>, p: int)
    requires 0 <= p < |data|
    ensures RowsText(headers, data[..p + 1]) == RowsText(headers, data[..p]) + RowLine(headers, data[p])
  {
    assert data[..p + 1][..p] == data[..p];
  }

  /** The row loop: one line per point, in order. */
  method WriteRows(headers: seq<string>, data: seq<Object>) returns (rows: string)
    ensures rows == RowsText(headers, data)
  {
    rows := "";
    var p := 0;
    while p < |data|
      invariant 0 <= p <= |data|
      invariant rows == RowsText(headers, data[..p])
    {
      RowsStep(headers, data, p);
      rows := rows + RowLine(headers, data[p]);
      p := p + 1;
    }
    assert data[..p] == data;
  }

  /** `exportTestData`: header line, one line per point, then the statistics section. */
  method ExportTestData(data: seq<Object>, testName: string, subjectId: string, testStats: Option<Object>)
    returns (file: File)
    ensures file == TestFile(data, testName, subjectId, testStats)
  {
    var allKeys := CollectKeys(data);
    var headers := SortStrings(allKeys);
    var rows := WriteRows(headers, data);
    var section := "";
    if testStats.Some? {
      var lines := WriteStatsLines(StatsOrder(testName), StatsLabels(testName), testStats.value);
      section := StatsBanner + StatsHeader + lines;
    }
    file := File(TestFileName(testName, subjectId), Join(headers, ",") + "\n" + rows + section);
  }

  // ---------------------------------------------------------------------
  // From the session's records and reports to objects
  // ---------------------------------------------------------------------

  function OptNumber(v: Option<int>): Value {
    if v.Some? then Number(v.value) else Null
  }

  /** A data point with its properties in the order `recordResponse` writes them. */
  function RecordObject(r: Record): Object {
    var head := [("subjectId", Text(r.subjectId)), ("testName", Text(r.testName)),
                 ("blockType", Text(r.blockType)), ("blockNumber", OptNumber(r.blockNumber)),
                 ("trialNumber", Number(r.trialNumber))];
    var tail := [("response", Number(r.response)), ("responseOutcome", Number(r.responseOutcome)),
                 ("reactionTime", OptNumber(r.reactionTime)), ("timestamp", Number(r.timestamp))];
    match r.stimulus
    case DigitStimulus(go, digit, fontSize) =>
      head + [("go", Number(go)), ("digit", Number(digit)), ("fontSize", Number(fontSize))] + tail
    case LetterStimulus(currentLetter, nback1, nback2, nback3, isMatch) =>
      head + [("currentLetter", OptNumber(currentLetter)), ("nback1", OptNumber(nback1)),
              ("nback2", OptNumber(nback2)), ("nback3", OptNumber(nback3)), ("isMatch", Number(isMatch))] + tail
  }

  /** `toFixed(digits)`, which the model does not compute. */
  datatype Formatter = Formatter(fixed: (real, nat) -> string)

  function Fixed(fmt: Formatter, x: Option<real>, digits: nat): Value {
    if x.Some? then Text(fmt.fixed(x.value, digits)) else Null
  }

  /** The SART statistics object; `calculateSARTStats` lists its properties in the export order. */
  function SartObject(r: SartReport, fmt: Formatter): Object {
    Zip(SartStatsOrder, [
      Number(r.totalTrials), Number(r.goTrialsCount), Number(r.noGoTrialsCount),
      Fixed(fmt, Some(r.totalAccuracy), 2), Fixed(fmt, Some(r.goAccuracy), 2), Fixed(fmt, Some(r.noGoAccuracy), 2),
      Number(r.correctGoTrialsCount), Number(r.correctNoGoTrials),
      Number(r.commissionErrors), Number(r.omissionErrors),
      Fixed(fmt, Some(r.commissionErrorsPercent), 2), Fixed(fmt, Some(r.omissionErrorsPercent), 2),
      Fixed(fmt, r.meanRT_correctGo, 2),
      Fixed(fmt, r.postErrorSlowingMean, 2), Fixed(fmt, r.postErrorSlowingMedian, 2), Number(r.postErrorSlowingCount),
      Fixed(fmt, r.sdRT, 2), Fixed(fmt, r.medianRT, 2), Number(r.maxStreak), Fixed(fmt, Some(r.fastRTRate), 2),
      Fixed(fmt, r.rtDriftCorrelation, 4), Fixed(fmt, r.rtDriftHalfDiff, 2), Fixed(fmt, r.totalTime, 2),
      Number(r.correctResponses), Number(r.incorrectResponses), Fixed(fmt, r.meanRT_allGo, 2)])
  }

  /** `x !== null ? x.toFixed(2) : "N/A"`. */
  function FixedOrNA(fmt: Formatter, x: Option<real>): Value {
    if x.Some? then Text(fmt.fixed(x.value, 2)) else Text("N/A")
  }

  /** The N-back statistics object; `calculateNBackStats` lists its properties in the export order. */
  function NBackObject(r: NBackReport, fmt: Formatter): Object {
    Zip(NBackStatsOrder, [
      Number(r.totalTrials), Number(r.matchTrialsCount), Number(r.nonMatchTrialsCount),
      Fixed(fmt, Some(r.totalAccuracy), 2), Fixed(fmt, Some(r.matchAccuracy), 2), Fixed(fmt, Some(r.nonMatchAccuracy), 2),
      Number(r.correctMatchResponses), Number(r.correctNonMatchResponses),
      Number(r.falseAlarms), Number(r.misses),
      FixedOrNA(fmt, r.dPrime), FixedOrNA(fmt, r.criterionC),
      Fixed(fmt, r.hitRate, 2), Fixed(fmt, r.falseAlarmRate, 2),
      Fixed(fmt, r.meanRT_correctMatch, 2), Fixed(fmt, r.sdRT, 2), Fixed(fmt, r.medianRT, 2),
      Number(r.maxStreak), Fixed(fmt, r.rtDifferenceHitVsFalseAlarm, 2),
      Fixed(fmt, r.learningTrend, 2), Fixed(fmt, r.totalTime, 2),
      Number(r.correctResponses), Number(r.incorrectResponses)])
  }

  /** The SART report object lists exactly the keys of its fixed order, so all 26 statistics get a line. */
  lemma SartObjectFollowsOrder(s: SartReport, fmt: Formatter)
    ensures Keys(SartObject(s, fmt)) == SartStatsOrder
    ensures |StatsLines(SartStatsOrder, SartStatsLabels, SartObject(s, fmt))| == |SartStatsOrder| == 26
  {
    var so := SartObject(s, fmt);
    assert Keys(so) == SartStatsOrder;
    FilterAll(SartStatsOrder, (key: string) => key in Keys(so));
    StatsLinesFollowOrder(SartStatsOrder, SartStatsLabels, so);
  }

  /** The N-back report object lists exactly the keys of its fixed order, so all 23 statistics get a line. */
  lemma NBackObjectFollowsOrder(n: NBackReport, fmt: Formatter)
    ensures Keys(NBackObject(n, fmt)) == NBackStatsOrder
    ensures |StatsLines(NBackStatsOrder, NBackStatsLabels, NBackObject(n, fmt))| == |NBackStatsOrder| == 23
  {
    var no := NBackObject(n, fmt);
    assert Keys(no) == NBackStatsOrder;
    FilterAll(NBackStatsOrder, (key: string) => key in Keys(no));
    StatsLinesFollowOrder(NBackStatsOrder, NBackStatsLabels, no);
  }

  /** A filter keeps the whole list when every element passes it. */
  lemma {:induction false} FilterAll<T>(s: seq<T>, p: T -> bool)
    requires forall i :: 0 <= i < |s| ==> p(s[i])
    ensures Filter(s, p) == s
  {
    if s != [] {
      FilterAll(s[..|s| - 1], p);
      assert s[..|s| - 1] + [s[|s| - 1]] == s;
    }
  }

  /** The test's records, as objects. */
  function TestObjects(data: seq<Record>, testName: string): seq<Object> {
    Map(OfTest(data, testName), RecordObject)
  }

  /**
   * `exportToCSV(data, subjectId, stats)`: nothing for no data; otherwise a
   * trial-data file for each test that has records, SART first, each with
   * that test's statistics section when the report exists.
   */
  method ExportToCsv(data: seq<Record>, subjectId: string, stats: Option<Stats>, fmt: Formatter)
    returns (files: seq<File>)
    ensures data == [] ==> files == []
    ensures data != [] ==> (files ==
      (if OfTest(data, SartName) != [] then
         [TestFile(TestObjects(data, SartName), SartName, subjectId, SartStatsObject(stats, fmt))] else []) +
      (if OfTest(data, NBackName) != [] then
         [TestFile(TestObjects(data, NBackName), NBackName, subjectId, NBackStatsObject(stats, fmt))] else []))
  {
    if data == [] {
      return [];
    }
    var sartFiles: seq<File> := [];
    var sartData := OfTest(data, SartName);
    if sartData != [] {
      var file := ExportTestData(Map(sartData, RecordObject), SartName, subjectId, SartStatsObject(stats, fmt));
      sartFiles := [file];
    }
    var nbackFiles: seq<File> := [];
    var nbackData := OfTest(data, NBackName);
    if nbackData != [] {
      var file := ExportTestData(Map(nbackData, RecordObject), NBackName, subjectId, NBackStatsObject(stats, fmt));
      nbackFiles := [file];
    }
    files := sartFiles + nbackFiles;
  }

  /** `stats?.sart`. */
  function SartStatsObject(stats: Option<Stats>, fmt: Formatter): Option<Object> {
    if stats.Some? && stats.value.sart.Some? then Some(SartObject(stats.value.sart.value, fmt)) else None
  }

  /** `stats?.nback`. */
  function NBackStatsObject(stats: Option<Stats>, fmt: Formatter): Option<Object> {
    if stats.Some? && stats.value.nback.Some? then Some(NBackObject(stats.value.nback.value, fmt)) else None
  }

  /** The statistics file of one test. */
  function StatsFile(testName: string, subjectId: string, stats: Object): File {
    File(StatsFileName(testName, subjectId),
         StatsHeader + Lines(StatsLines(StatsOrder(testName), StatsLabels(testName), stats)))
  }

  /** One statistics download: the header line, then the lines of the test's fixed order. */
  method ExportStatsFile(testName: string, subjectId: string, stats: Object) returns (file: File)
    ensures file == StatsFile(testName, subjectId, stats)
  {
    var lines := WriteStatsLines(StatsOrder(testName), StatsLabels(testName), stats);
    file := File(StatsFileName(testName, subjectId), StatsHeader + lines);
  }

  /** `exportStatsToCSV(stats, subjectId)`: a statistics file for each report present. */
  method ExportStatsToCsv(stats: Option<Stats>, subjectId: string, fmt: Formatter) returns (files: seq<File>)
    ensures stats.None? ==> files == []
    ensures files ==
      (if SartStatsObject(stats, fmt).Some? then [StatsFile(SartName, subjectId, SartStatsObject(stats, fmt).value)] else []) +
      (if NBackStatsObject(stats, fmt).Some? then [StatsFile(NBackName, subjectId, NBackStatsObject(stats, fmt).value)] else [])
  {
    if stats.None? {
      return [];
    }
    var sartFiles: seq<File> := [];
    var sart := SartStatsObject(stats, fmt);
    if sart.Some? {
      var file := ExportStatsFile(SartName, subjectId, sart.value);
      sartFiles := [file];
    }
    var nbackFiles: seq<File> := [];
    var nback := NBackStatsObject(stats, fmt);
    if nback.Some? {
      var file := ExportStatsFile(NBackName, subjectId, nback.value);
      nbackFiles := [file];
    }
    files := sartFiles + nbackFiles;
  }
}
