/**
 * The statistics engine (js/statistics.js): the SART and N-back reports
 * computed from a session's data points, and the helpers they share
 * (means, median, streaks, post-error split, signal detection).
 *
 * Numbers are exact: counts are naturals, rates and means are reals. The
 * square root and the natural logarithm are supplied as functions, since
 * only their guard cases matter. A report value that JavaScript formats
 * with `toFixed` is kept as the real it formats.
 */
module Statistics {
  import opened Wrappers
  import opened Seqs
  import opened Records

  type NonNeg = r: real | r >= 0.0

  /** `Math.sqrt` and `Math.log`. */
  datatype Numerics = Numerics(sqrt: real -> NonNeg, ln: real -> real)

  // ---------------------------------------------------------------------
  // Field tests (`t.go === 1`, `t.responseOutcome === 1`, ...)
  // ---------------------------------------------------------------------

  predicate IsGoTrial(r: Record) { r.stimulus.DigitStimulus? && r.stimulus.go == 1 }
  predicate IsNoGoTrial(r: Record) { r.stimulus.DigitStimulus? && r.stimulus.go == 0 }
  predicate IsMatchTrial(r: Record) { r.stimulus.LetterStimulus? && r.stimulus.isMatch == 1 }
  predicate IsNonMatchTrial(r: Record) { r.stimulus.LetterStimulus? && r.stimulus.isMatch == 0 }
  predicate IsCorrect(r: Record) { r.responseOutcome == 1 }
  predicate IsIncorrect(r: Record) { r.responseOutcome == 0 }
  predicate Pressed(r: Record) { r.response == 1 }
  predicate NotPressed(r: Record) { r.response == 0 }
  predicate HasRt(r: Record) { r.reactionTime.Some? }

  /** `t.reactionTime`, used only on records that have one. */
  function Rt(r: Record): int {
    r.reactionTime.GetOr(0)
  }

  function Rts(rs: seq<Record>): seq<int> {
    Map(rs, Rt)
  }

  // ---------------------------------------------------------------------
  // Sums, extremes, means and percentages
  // ---------------------------------------------------------------------

  /** `v.reduce((a, b) => a + b, 0)`. */
  function Sum(v: seq<int>): int {
    if v == [] then 0 else Sum(v[..|v| - 1]) + v[|v| - 1]
  }

  function Min(v: seq<int>): (m: int)
    requires v != []
    ensures m in v
    ensures forall i :: 0 <= i < |v| ==> m <= v[i]
  {
    if |v| == 1 then v[0]
    else
      var m := Min(v[..|v| - 1]);
      assert forall i :: 0 <= i < |v| - 1 ==> v[..|v| - 1][i] == v[i];
      if v[|v| - 1] < m then v[|v| - 1] else m
  }

  function Max(v: seq<int>): (m: int)
    requires v != []
    ensures m in v
    ensures forall i :: 0 <= i < |v| ==> v[i] <= m
  {
    if |v| == 1 then v[0]
    else
      var m := Max(v[..|v| - 1]);
      assert forall i :: 0 <= i < |v| - 1 ==> v[..|v| - 1][i] == v[i];
      if v[|v| - 1] > m then v[|v| - 1] else m
  }

  lemma MulMonotone(a: nat, b: int, c: int)
    requires b <= c
    ensures a * b <= a * c
  {
  }

  lemma MulSucc(a: nat, m: int)
    ensures (a + 1) * m == a * m + m
  {
  }

  lemma CastProduct(a: int, b: int)
    ensures (a * b) as real == (a as real) * (b as real)
  {
  }

  /** Multiplying by a positive number keeps order in both directions. */
  lemma CancelPositive(a: real, b: real, n: real)
    requires n > 0.0 && a * n <= b * n
    ensures a <= b
  {
  }

  lemma {:induction false} SumLower(v: seq<int>)
    requires v != []
    ensures |v| * Min(v) <= Sum(v)
  {
    if |v| > 1 {
      var front := v[..|v| - 1];
      SumLower(front);
      var m := Min(v);
      assert m <= Min(front) && m <= v[|v| - 1];
      MulMonotone(|front|, m, Min(front));
      MulSucc(|front|, m);
    }
  }

  lemma {:induction false} SumUpper(v: seq<int>)
    requires v != []
    ensures Sum(v) <= |v| * Max(v)
  {
    if |v| > 1 {
      var front := v[..|v| - 1];
      SumUpper(front);
      var m := Max(v);
      assert Max(front) <= m && v[|v| - 1] <= m;
      MulMonotone(|front|, Max(front), m);
      MulSucc(|front|, m);
    }
  }

  /** `x.length > 0 ? sum / x.length : null`. */
  function Mean(v: seq<int>): (m: Option<real>)
    ensures m.None? <==> v == []
    ensures m.Some? ==> m.value * |v| as real == Sum(v) as real
  {
    if v == [] then None else Some(Sum(v) as real / |v| as real)
  }

  /** `n * lo <= s <= n * hi` places `s / n` between `lo` and `hi`. */
  lemma QuotientBetween(lo: int, hi: int, s: int, n: nat)
    requires n > 0 && n * lo <= s <= n * hi
    ensures lo as real <= s as real / n as real <= hi as real
  {
    CastProduct(n, lo);
    CastProduct(n, hi);
    var q := s as real / n as real;
    assert q * n as real == s as real;
    CancelPositive(lo as real, q, n as real);
    CancelPositive(q, hi as real, n as real);
  }

  /** A mean lies between the least and the greatest element. */
  lemma MeanBetween(v: seq<int>)
    requires v != []
    ensures Min(v) as real <= Mean(v).value <= Max(v) as real
  {
    SumLower(v);
    SumUpper(v);
    QuotientBetween(Min(v), Max(v), Sum(v), |v|);
  }

  /** `whole > 0 ? (part / whole) * 100 : 0`. */
  function Percent(part: nat, whole: nat): (p: real)
    ensures whole == 0 ==> p == 0.0
    ensures whole > 0 ==> p * whole as real == 100.0 * part as real
    ensures part <= whole ==> 0.0 <= p <= 100.0
  {
    if whole > 0 then (part as real / whole as real) * 100.0 else 0.0
  }

  /** The share of correct records in a list, or null when the list is empty. */
  function Accuracy(rs: seq<Record>): (a: Option<real>)
    ensures a.None? <==> rs == []
    ensures a.Some? ==> 0.0 <= a.value <= 100.0
    ensures a.Some? ==> a.value == Percent(|Filter(rs, IsCorrect)|, |rs|)
  {
    if rs == [] then None else Some(Percent(|Filter(rs, IsCorrect)|, |rs|))
  }

  /** `a !== null && b !== null ? a - b : null`. */
  function Difference(a: Option<real>, b: Option<real>): (d: Option<real>)
    ensures d.Some? <==> a.Some? && b.Some?
    ensures d.Some? ==> d.value + b.value == a.value
  {
    if a.Some? && b.Some? then Some(a.value - b.value) else None
  }

  /**
   * `x ? x.toFixed(...) : null`: a value is reported only when it is
   * truthy, so an exact 0 is reported as null.
   */
  function Truthy(x: Option<real>): (r: Option<real>)
    ensures r.Some? <==> x.Some? && x.value != 0.0
    ensures r.Some? ==> r == x
  {
    if x.Some? && x.value != 0.0 then x else None
  }

  // ---------------------------------------------------------------------
  // Median (js/statistics.js:30-37)
  // ---------------------------------------------------------------------

  ghost predicate SortedInts(s: seq<int>) {
    forall i, j :: 0 <= i < j < |s| ==> s[i] <= s[j]
  }

  /** Insertion before the first element not below `x`. */
  function Insert(x: int, s: seq<int>): (r: seq<int>)
    ensures |r| == |s| + 1
    ensures multiset(r) == multiset(s) + multiset{x}
  {
    if s == [] then [x]
    else if x <= s[0] then [x] + s
    else
      assert s == [s[0]] + s[1..];
      [s[0]] + Insert(x, s[1..])
  }

  /** Inserting into a sorted list keeps it sorted. */
  lemma {:induction false} InsertSorted(x: int, s: seq<int>)
    requires SortedInts(s)
    ensures SortedInts(Insert(x, s))
    ensures Insert(x, s)[0] == if s == [] || x <= s[0] then x else s[0]
  {
    if s != [] {
      if x <= s[0] {
        ConsSorted(x, s);
      } else {
        SortedTail(s);
        InsertSorted(x, s[1..]);
        ConsSorted(s[0], Insert(x, s[1..]));
      }
    }
  }

  /** A head no greater than the first element of a sorted tail gives a sorted list. */
  lemma ConsSorted(h: int, t: seq<int>)
    requires SortedInts(t) && (t != [] ==> h <= t[0])
    ensures SortedInts([h] + t)
  {
    var r := [h] + t;
    forall i, j | 0 <= i < j < |r|
      ensures r[i] <= r[j]
    {
      if i == 0 {
        assert r[j] == t[j - 1];
      } else {
        assert r[i] == t[i - 1] && r[j] == t[j - 1];
      }
    }
  }

  /** `[...values].sort((a, b) => a - b)`: a sorted copy. */
  function Sort(s: seq<int>): (r: seq<int>)
    ensures |r| == |s|
    ensures multiset(r) == multiset(s)
    ensures SortedInts(r)
  {
    if s == [] then []
    else
      assert s == s[..|s| - 1] + [s[|s| - 1]];
      var sorted := Sort(s[..|s| - 1]);
      InsertSorted(s[|s| - 1], sorted);
      Insert(s[|s| - 1], sorted)
  }

  /** The first element of a sorted list is its least. */
  lemma SortedHeadIsLeast(s: seq<int>, x: int)
    requires SortedInts(s) && x in s
    ensures s[0] <= x
  {
  }

  lemma SortedTail(s: seq<int>)
    requires SortedInts(s) && s != []
    ensures SortedInts(s[1..])
  {
    assert forall i :: 0 <= i < |s| - 1 ==> s[1..][i] == s[i + 1];
  }

  lemma MultisetTail(s: seq<int>)
    requires s != []
    ensures multiset(s[1..]) == multiset(s) - multiset{s[0]}
  {
    assert s == [s[0]] + s[1..];
  }

  /** Two sorted lists with the same elements start with the same one. */
  lemma SameHead(a: seq<int>, b: seq<int>)
    requires SortedInts(a) && SortedInts(b) && a != []
    requires multiset(a) == multiset(b)
    ensures b != [] && a[0] == b[0]
  {
    assert |b| == |multiset(b)| == |multiset(a)| == |a|;
    assert a[0] in multiset(b) && b[0] in multiset(a);
    SortedHeadIsLeast(b, a[0]);
    SortedHeadIsLeast(a, b[0]);
  }

  /** A sorted list is determined by its elements. */
  lemma {:induction false} SortedUnique(a: seq<int>, b: seq<int>)
    requires SortedInts(a) && SortedInts(b)
    requires multiset(a) == multiset(b)
    ensures a == b
  {
    if a == [] {
      assert |b| == |multiset(b)| == 0;
    } else {
      SameHead(a, b);
      MultisetTail(a);
      MultisetTail(b);
      SortedTail(a);
      SortedTail(b);
      SortedUnique(a[1..], b[1..]);
      assert a == [a[0]] + a[1..] && b == [b[0]] + b[1..];
    }
  }

  /** The middle of a sorted list: its middle element, or the mean of the two middle ones. */
  function Middle(sorted: seq<int>): real
    requires sorted != []
  {
    var mid := |sorted| / 2;
    if |sorted| % 2 == 0 then (sorted[mid - 1] + sorted[mid]) as real / 2.0
    else sorted[mid] as real
  }

  /** `calculateMedian`: null for no values, else the middle of the sorted copy. */
  function Median(values: seq<int>): (m: Option<real>)
    ensures m.None? <==> values == []
  {
    if values == [] then None else Some(Middle(Sort(values)))
  }

  /** The median does not depend on the order of the values. */
  lemma MedianOrderIndependent(a: seq<int>, b: seq<int>)
    requires multiset(a) == multiset(b)
    ensures Median(a) == Median(b)
  {
    var sa, sb := Sort(a), Sort(b);
    SortedUnique(sa, sb);
    assert |a| == |multiset(a)| == |multiset(b)| == |b|;
  }

  /** On sorted values the median is the middle element, or the mean of the two middle ones. */
  lemma MedianOfSorted(s: seq<int>)
    requires SortedInts(s) && s != []
    ensures |s| % 2 == 1 ==> Median(s) == Some(s[|s| / 2] as real)
    ensures |s| % 2 == 0 ==> Median(s) == Some((s[|s| / 2 - 1] + s[|s| / 2]) as real / 2.0)
  {
    SortOfSorted(s);
    assert Median(s) == Some(Middle(s));
  }

  /** Sorting a sorted list changes nothing. */
  lemma SortOfSorted(s: seq<int>)
    requires SortedInts(s)
    ensures Sort(s) == s
  {
    SortedUnique(Sort(s), s);
  }

  /** The median lies between the least and the greatest value. */
  lemma MedianBetween(values: seq<int>)
    requires values != []
    ensures Min(values) as real <= Median(values).value <= Max(values) as real
  {
    var sorted := Sort(values);
    var lo, hi := Min(values), Max(values);
    forall i | 0 <= i < |sorted|
      ensures lo <= sorted[i] <= hi
    {
      assert sorted[i] in multiset(values);
      InRange(values, sorted[i]);
    }
    MiddleBetween(sorted, lo, hi);
  }

  /** The middle of a list whose elements lie in a range lies in that range. */
  lemma MiddleBetween(sorted: seq<int>, lo: int, hi: int)
    requires sorted != []
    requires forall i :: 0 <= i < |sorted| ==> lo <= sorted[i] <= hi
    ensures lo as real <= Middle(sorted) <= hi as real
  {
    var mid := |sorted| / 2;
    if |sorted| % 2 == 0 {
      PairMeanBetween(lo, sorted[mid - 1], sorted[mid], hi);
    }
  }

  /** The mean of two values in a range is in that range. */
  lemma PairMeanBetween(lo: int, a: int, b: int, hi: int)
    requires lo <= a <= hi && lo <= b <= hi
    ensures lo as real <= (a + b) as real / 2.0 <= hi as real
  {
  }

  /** Every value lies between the least and the greatest. */
  lemma InRange(values: seq<int>, x: int)
    requires x in values
    ensures Min(values) <= x <= Max(values)
  {
  }

  // ---------------------------------------------------------------------
  // Correlation and z-score (only their guard cases are exact)
  // ---------------------------------------------------------------------

  /** `x.reduce((acc, xi, i) => acc + xi * y[i], 0)`. */
  function SumProducts(x: seq<int>, y: seq<int>): int
    requires |x| == |y|
  {
    if x == [] then 0 else SumProducts(x[..|x| - 1], y[..|y| - 1]) + x[|x| - 1] * y[|y| - 1]
  }

  lemma {:induction false} SumProductsCommute(x: seq<int>, y: seq<int>)
    requires |x| == |y|
    ensures SumProducts(x, y) == SumProducts(y, x)
  {
    if x != [] {
      SumProductsCommute(x[..|x| - 1], y[..|y| - 1]);
    }
  }

  /** `calculateCorrelation`: Pearson's r, null for unequal or short lists and for a zero denominator. */
  function Correlation(x: seq<int>, y: seq<int>, num: Numerics): (c: Option<real>)
    ensures |x| != |y| || |x| < 2 ==> c.None?
  {
    if |x| != |y| || |x| < 2 then None
    else
      var n := |x|;
      var sumX := Sum(x);
      var sumY := Sum(y);
      var numerator := n * SumProducts(x, y) - sumX * sumY;
      var denominator := num.sqrt(((n * SumProducts(x, x) - sumX * sumX) * (n * SumProducts(y, y) - sumY * sumY)) as real);
      if denominator == 0.0 then None else Some(numerator as real / denominator)
  }

  /** Correlation is symmetric in its two lists. */
  lemma CorrelationSymmetric(x: seq<int>, y: seq<int>, num: Numerics)
    ensures Correlation(x, y, num) == Correlation(y, x, num)
  {
    if |x| == |y| && |x| >= 2 {
      SumProductsCommute(x, y);
      var a := |x| * SumProducts(x, x) - Sum(x) * Sum(x);
      var b := |y| * SumProducts(y, y) - Sum(y) * Sum(y);
      assert a * b == b * a;
    }
  }

  const C0: real := 2.515517
  const C1: real := 0.802853
  const C2: real := 0.010328
  const D1: real := 1.432788
  const D2: real := 0.189269
  const D3: real := 0.001308

  /**
   * `zScore(p)`: the rational approximation of the inverse normal CDF,
   * 0 outside (0, 1) and at 0.5, and odd around 0.5.
   */
  function ZScore(p: real, num: Numerics): (z: real)
    ensures p <= 0.0 || p >= 1.0 || p == 0.5 ==> z == 0.0
  {
    if p <= 0.0 || p >= 1.0 then 0.0
    else if p == 0.5 then 0.0
    else
      var sign := if p < 0.5 then -1.0 else 1.0;
      var t := if p < 0.5 then p else 1.0 - p;
      var x: real := num.sqrt(-2.0 * num.ln(t));
      assert 1.0 + D1 * x + D2 * x * x + D3 * x * x * x >= 1.0;
      sign * (x - (C0 + C1 * x + C2 * x * x) / (1.0 + D1 * x + D2 * x * x + D3 * x * x * x))
  }

  /** The z-score of `1 - p` is minus that of `p`. */
  lemma ZScoreOdd(p: real, num: Numerics)
    requires 0.0 < p < 1.0
    ensures ZScore(1.0 - p, num) == -ZScore(p, num)
  {
    assert 1.0 - (1.0 - p) == p;
  }

  // ---------------------------------------------------------------------
  // Longest run of correct responses (js/statistics.js:194-203, 423-432)
  // ---------------------------------------------------------------------

  /** The records `i .. i + len - 1` exist and are all correct. */
  ghost predicate IsRun(data: seq<Record>, i: int, len: int) {
    0 <= i && 0 <= len && i + len <= |data| && forall j :: i <= j < i + len ==> IsCorrect(data[j])
  }

  /** The number of correct records at the end of the list. */
  function TrailingRun(data: seq<Record>): (n: nat)
    ensures n <= |data|
  {
    if data == [] || !IsCorrect(data[|data| - 1]) then 0 else TrailingRun(data[..|data| - 1]) + 1
  }

  /** The length of the longest run of correct records. */
  function LongestRun(data: seq<Record>): (n: nat)
    ensures n <= |data|
  {
    if data == [] then 0
    else
      var front := LongestRun(data[..|data| - 1]);
      var trailing := TrailingRun(data);
      if trailing > front then trailing else front
  }

  lemma {:induction false} TrailingRunIsRun(data: seq<Record>)
    ensures IsRun(data, |data| - TrailingRun(data), TrailingRun(data))
    ensures |data| > TrailingRun(data) ==> !IsCorrect(data[|data| - TrailingRun(data) - 1])
  {
    if data != [] && IsCorrect(data[|data| - 1]) {
      var front := data[..|data| - 1];
      TrailingRunIsRun(front);
      assert forall j :: 0 <= j < |front| ==> front[j] == data[j];
    }
  }

  /** A run that reaches the end of the list is no longer than the trailing run. */
  lemma TrailingRunIsLongestAtEnd(data: seq<Record>, i: int)
    requires IsRun(data, i, |data| - i)
    ensures |data| - i <= TrailingRun(data)
  {
    TrailingRunIsRun(data);
  }

  /** `maxStreak` is the length of the longest run of correct records. */
  lemma {:induction false} LongestRunIsLongest(data: seq<Record>)
    ensures exists i :: IsRun(data, i, LongestRun(data))
    ensures forall i, len :: IsRun(data, i, len) ==> len <= LongestRun(data)
  {
    if data == [] {
      assert LongestRun(data) == 0 && IsRun(data, 0, 0);
    } else {
      var front := data[..|data| - 1];
      LongestRunIsLongest(front);
      TrailingRunIsRun(data);
      if TrailingRun(data) > LongestRun(front) {
        assert IsRun(data, |data| - TrailingRun(data), LongestRun(data));
      } else {
        var i :| IsRun(front, i, LongestRun(front));
        assert IsRun(data, i, LongestRun(data));
      }
      forall i, len | IsRun(data, i, len)
        ensures len <= LongestRun(data)
      {
        if i + len == |data| {
          TrailingRunIsLongestAtEnd(data, i);
        } else {
          assert IsRun(front, i, len);
        }
      }
    }
  }

  /** The streak loop: count up on a correct record, reset on any other. */
  method MaxStreak(data: seq<Record>) returns (maxStreak: nat)
    ensures maxStreak == LongestRun(data)
    ensures maxStreak <= |data|
  {
    var currentStreak := 0;
    maxStreak := 0;
    var i := 0;
    while i < |data|
      invariant 0 <= i <= |data|
      invariant currentStreak == TrailingRun(data[..i])
      invariant maxStreak == LongestRun(data[..i])
    {
      assert data[..i + 1][..i] == data[..i];
      if IsCorrect(data[i]) {
        currentStreak := currentStreak + 1;
        maxStreak := if maxStreak > currentStreak then maxStreak else currentStreak;
      } else {
        currentStreak := 0;
      }
      i := i + 1;
    }
    assert data[..i] == data;
  }

  // ---------------------------------------------------------------------
  // Post-error slowing (js/statistics.js:139-174)
  // ---------------------------------------------------------------------

  /** A correct Go record with a reaction time: the only kind the post-error loop collects. */
  predicate CountsForSlowing(r: Record) {
    IsCorrect(r) && HasRt(r) && IsGoTrial(r)
  }

  /** Reaction times of qualifying records whose predecessor was an error. */
  function PostErrorRts(data: seq<Record>): seq<int> {
    if |data| <= 1 then []
    else
      var n := |data|;
      PostErrorRts(data[..n - 1]) +
        (if CountsForSlowing(data[n - 1]) && data[n - 2].responseOutcome == 0 then [Rt(data[n - 1])] else [])
  }

  /** Reaction times of qualifying records whose predecessor was not an error. */
  function PostCorrectRts(data: seq<Record>): seq<int> {
    if |data| <= 1 then []
    else
      var n := |data|;
      PostCorrectRts(data[..n - 1]) +
        (if CountsForSlowing(data[n - 1]) && data[n - 2].responseOutcome != 0 then [Rt(data[n - 1])] else [])
  }

  /** The post-error loop: each qualifying record after the first goes to one list by its predecessor. */
  method SplitPostError(data: seq<Record>) returns (postErrorRTs: seq<int>, postCorrectRTs: seq<int>)
    ensures postErrorRTs == PostErrorRts(data)
    ensures postCorrectRTs == PostCorrectRts(data)
  {
    postErrorRTs := [];
    postCorrectRTs := [];
    if data == [] {
      return;
    }
    var i := 1;
    while i < |data|
      invariant 1 <= i <= |data|
      invariant postErrorRTs == PostErrorRts(data[..i])
      invariant postCorrectRTs == PostCorrectRts(data[..i])
    {
      var prevTrial := data[i - 1];
      var currentTrial := data[i];
      assert data[..i + 1][..i] == data[..i];
      if currentTrial.responseOutcome == 1 && currentTrial.reactionTime.Some? && IsGoTrial(currentTrial) {
        if prevTrial.responseOutcome == 0 {
          postErrorRTs := postErrorRTs + [currentTrial.reactionTime.value];
        } else {
          postCorrectRTs := postCorrectRTs + [currentTrial.reactionTime.value];
        }
      }
      i := i + 1;
    }
    assert data[..i] == data;
  }

  /** The qualifying records from the second on. */
  function Qualifying(data: seq<Record>): seq<Record> {
    if data == [] then [] else Filter(data[1..], CountsForSlowing)
  }

  /** The two lists together are exactly as long as the qualifying records after the first. */
  lemma {:induction false} PostErrorCount(data: seq<Record>)
    ensures |PostErrorRts(data)| + |PostCorrectRts(data)| == |Qualifying(data)|
  {
    if |data| > 1 {
      var n := |data|;
      var front := data[..n - 1];
      PostErrorCount(front);
      var rest := data[1..];
      assert rest[..|rest| - 1] == front[1..];
      assert rest[|rest| - 1] == data[n - 1];
      assert data[n - 2] == front[n - 2];
    }
  }

  /** Each qualifying record after the first has its reaction time in the list its predecessor selects. */
  lemma {:induction false} PostErrorMembers(data: seq<Record>)
    ensures forall i :: 1 <= i < |data| && CountsForSlowing(data[i]) && data[i - 1].responseOutcome == 0 ==>
              Rt(data[i]) in PostErrorRts(data)
    ensures forall i :: 1 <= i < |data| && CountsForSlowing(data[i]) && data[i - 1].responseOutcome != 0 ==>
              Rt(data[i]) in PostCorrectRts(data)
  {
    if |data| > 1 {
      var n := |data|;
      var front := data[..n - 1];
      PostErrorMembers(front);
      assert forall i :: 0 <= i < n - 1 ==> front[i] == data[i];
    }
  }

  // ---------------------------------------------------------------------
  // Spread, halves, learning trend, duration
  // ---------------------------------------------------------------------

  /** `sum((x - mean)^2)`. */
  function SquaredDeviations(v: seq<int>, mean: real): (s: real)
    ensures s >= 0.0
  {
    if v == [] then 0.0
    else SquaredDeviations(v[..|v| - 1], mean) + (v[|v| - 1] as real - mean) * (v[|v| - 1] as real - mean)
  }

  /** The sample standard deviation, null for fewer than two values. */
  function SampleSd(v: seq<int>, num: Numerics): (sd: Option<real>)
    ensures sd.Some? <==> |v| > 1
    ensures sd.Some? ==> sd.value >= 0.0
  {
    if |v| > 1 then Some(num.sqrt(SquaredDeviations(v, Mean(v).value) / (|v| - 1) as real)) else None
  }

  /** `slice(0, halfIndex)` and `slice(halfIndex)` with `halfIndex = floor(length / 2)`. */
  function Halves(v: seq<int>): (h: (seq<int>, seq<int>))
    ensures h.0 + h.1 == v
    ensures |h.1| == |h.0| || |h.1| == |h.0| + 1
  {
    (v[..|v| / 2], v[|v| / 2..])
  }

  /** `rtDriftHalfDiff` before reporting: the mean of the second half minus that of the first. */
  function HalfDrift(rts: seq<int>): (d: Option<real>)
    ensures d.Some? <==> |rts| >= 2
    ensures d.Some? ==> d.value == Mean(rts[|rts| / 2..]).value - Mean(rts[..|rts| / 2]).value
  {
    Difference(Mean(Halves(rts).1), Mean(Halves(rts).0))
  }

  /** Accuracy in records 27-52 minus accuracy in records 1-26, when both slices exist. */
  function LearningTrend(data: seq<Record>): (t: Option<real>)
    ensures t.Some? <==> |data| > 26
    ensures t.Some? ==> -100.0 <= t.value <= 100.0
    ensures t.Some? ==> t.value == Accuracy(data[26..if |data| < 52 then |data| else 52]).value - Accuracy(data[..26]).value
  {
    var firstBlock := data[..if |data| < 26 then |data| else 26];
    var secondBlock := if |data| <= 26 then [] else data[26..if |data| < 52 then |data| else 52];
    Difference(Accuracy(secondBlock), Accuracy(firstBlock))
  }

  /** `data[0].timestamp || null`, the same for the last record, and their distance in seconds. */
  function TotalTime(data: seq<Record>): (t: Option<real>)
    ensures t.Some? <==> data != [] && data[0].timestamp != 0 && data[|data| - 1].timestamp != 0
    ensures t.Some? ==> t.value * 1000.0 == (data[|data| - 1].timestamp - data[0].timestamp) as real
  {
    if data == [] || data[0].timestamp == 0 || data[|data| - 1].timestamp == 0 then None
    else Some((data[|data| - 1].timestamp - data[0].timestamp) as real / 1000.0)
  }

  // ---------------------------------------------------------------------
  // Signal detection (js/statistics.js:355-383)
  // ---------------------------------------------------------------------

  /** Rates of exactly 0 and 1 become 0.01 and 0.99 before the z-score. */
  function Clamp(rate: real): (a: real)
    ensures 0.0 <= rate <= 1.0 ==> 0.0 < a < 1.0
    ensures rate == 0.0 ==> a == 0.01
    ensures rate == 1.0 ==> a == 0.99
    ensures rate != 0.0 && rate != 1.0 ==> a == rate
  {
    if rate == 1.0 then 0.99 else if rate == 0.0 then 0.01 else rate
  }

  lemma ClampMirror(rate: real)
    ensures Clamp(1.0 - rate) == 1.0 - Clamp(rate)
  {
  }

  /** The signal-detection part of the N-back report; null fields are only computed with five of each kind. */
  datatype Detection = Detection(hitRate: Option<real>, falseAlarmRate: Option<real>,
                                 dPrime: Option<real>, criterionC: Option<real>)

  /**
   * `hits` presses on `matches` match trials and `falseAlarms` presses on
   * `nonMatches` non-match trials. The rates are reported as percentages.
   */
  function Detect(matches: nat, nonMatches: nat, hits: nat, falseAlarms: nat, num: Numerics): (d: Detection)
    ensures d.dPrime.Some? <==> matches >= 5 && nonMatches >= 5
    ensures d.criterionC.Some? <==> d.dPrime.Some?
    ensures d.hitRate.Some? <==> d.dPrime.Some?
    ensures d.falseAlarmRate.Some? <==> d.dPrime.Some?
    ensures d.hitRate.Some? ==> d.hitRate.value == Percent(hits, matches)
    ensures d.falseAlarmRate.Some? ==> d.falseAlarmRate.value == Percent(falseAlarms, nonMatches)
    ensures d.dPrime.Some? ==>
              var zHit := ZScore(Clamp(hits as real / matches as real), num);
              var zFA := ZScore(Clamp(falseAlarms as real / nonMatches as real), num);
              d.dPrime == Some(zHit - zFA) && d.criterionC == Some(-0.5 * (zHit + zFA))
  {
    if matches >= 5 && nonMatches >= 5 then
      var hitRate := hits as real / matches as real;
      var falseAlarmRate := falseAlarms as real / nonMatches as real;
      var zHit := ZScore(Clamp(hitRate), num);
      var zFA := ZScore(Clamp(falseAlarmRate), num);
      Detection(Some(hitRate * 100.0), Some(falseAlarmRate * 100.0), Some(zHit - zFA), Some(-0.5 * (zHit + zFA)))
    else
      Detection(None, None, None, None)
  }

  /** Equal hit and false-alarm rates give d' = 0. */
  lemma NoDiscrimination(matches: nat, nonMatches: nat, hits: nat, falseAlarms: nat, num: Numerics)
    requires matches >= 5 && nonMatches >= 5
    requires hits as real / matches as real == falseAlarms as real / nonMatches as real
    ensures Detect(matches, nonMatches, hits, falseAlarms, num).dPrime == Some(0.0)
  {
  }

  /** Hit rate and false-alarm rate that add up to one give an unbiased criterion C = 0. */
  lemma UnbiasedCriterion(matches: nat, nonMatches: nat, hits: nat, falseAlarms: nat, num: Numerics)
    requires matches >= 5 && nonMatches >= 5 && hits <= matches
    requires hits as real / matches as real + falseAlarms as real / nonMatches as real == 1.0
    ensures Detect(matches, nonMatches, hits, falseAlarms, num).criterionC == Some(0.0)
  {
    var h := hits as real / matches as real;
    ClampMirror(h);
    assert 0.0 <= h <= 1.0;
    ZScoreOdd(Clamp(h), num);
  }

  /** The rate of the complement is one minus the rate. */
  lemma ComplementRate(part: nat, whole: nat)
    requires 0 < whole && part <= whole
    ensures (whole - part) as real / whole as real == 1.0 - part as real / whole as real
  {
    var w := whole as real;
    var r := part as real / w;
    var c := (whole - part) as real / w;
    assert r * w == part as real;
    assert c * w == (whole - part) as real;
    var x := c - (1.0 - r);
    assert x * w == 0.0;
  }

  /** Trading the roles of match and non-match trials negates d' and keeps C. */
  lemma DetectSwap(matches: nat, nonMatches: nat, hits: nat, falseAlarms: nat, num: Numerics)
    ensures var d := Detect(matches, nonMatches, hits, falseAlarms, num);
            var e := Detect(nonMatches, matches, falseAlarms, hits, num);
            && (d.dPrime.Some? <==> e.dPrime.Some?)
            && (d.dPrime.Some? ==> e.dPrime.value == -d.dPrime.value && e.criterionC == d.criterionC)
  {
  }

  /**
   * Counting misses as hits and correct rejections as false alarms mirrors
   * both rates, which negates d' and C.
   */
  lemma DetectMirror(matches: nat, nonMatches: nat, hits: nat, falseAlarms: nat, num: Numerics)
    requires hits <= matches && falseAlarms <= nonMatches
    ensures var d := Detect(matches, nonMatches, hits, falseAlarms, num);
            var e := Detect(matches, nonMatches, matches - hits, nonMatches - falseAlarms, num);
            && (d.dPrime.Some? <==> e.dPrime.Some?)
            && (d.dPrime.Some? ==> e.dPrime.value == -d.dPrime.value && e.criterionC.value == -d.criterionC.value)
  {
    if matches >= 5 && nonMatches >= 5 {
      var h := hits as real / matches as real;
      var f := falseAlarms as real / nonMatches as real;
      ComplementRate(hits, matches);
      ComplementRate(falseAlarms, nonMatches);
      ClampMirror(h);
      ClampMirror(f);
      ZScoreOdd(Clamp(h), num);
      ZScoreOdd(Clamp(f), num);
    }
  }

  // ---------------------------------------------------------------------
  // Reports
  // ---------------------------------------------------------------------

  /** `calculateSARTStats`'s object, in its field order; `toFixed` values are kept as reals. */
  datatype SartReport = SartReport(
    totalTrials: nat,
    goTrialsCount: nat,
    noGoTrialsCount: nat,
    totalAccuracy: real,
    goAccuracy: real,
    noGoAccuracy: real,
    correctGoTrialsCount: nat,
    correctNoGoTrials: nat,
    commissionErrors: nat,
    omissionErrors: nat,
    commissionErrorsPercent: real,
    omissionErrorsPercent: real,
    meanRT_correctGo: Option<real>,
    postErrorSlowingMean: Option<real>,
    postErrorSlowingMedian: Option<real>,
    postErrorSlowingCount: nat,
    sdRT: Option<real>,
    medianRT: Option<real>,
    maxStreak: nat,
    fastRTRate: real,
    rtDriftCorrelation: Option<real>,
    rtDriftHalfDiff: Option<real>,
    totalTime: Option<real>,
    correctResponses: nat,
    incorrectResponses: nat,
    meanRT_allGo: Option<real>)

  /** The SART report for non-empty data, given the streak and the post-error split. */
  function SartReportOf(data: seq<Record>, maxStreak: nat, postErrorRTs: seq<int>, postCorrectRTs: seq<int>,
                        num: Numerics): SartReport
  {
    var goTrials := Filter(data, IsGoTrial);
    var noGoTrials := Filter(data, IsNoGoTrial);
    var correctTrials := Filter(data, IsCorrect);
    var incorrectTrials := Filter(data, IsIncorrect);
    var correctGo := |Filter(goTrials, IsCorrect)|;
    var correctNoGo := |Filter(noGoTrials, IsCorrect)|;
    var commissionErrors := |Filter(noGoTrials, Pressed)|;
    var omissionErrors := |Filter(goTrials, NotPressed)|;
    var correctGoWithRt := Filter(goTrials, (t: Record) => IsCorrect(t) && HasRt(t));
    var allGoWithRt := Filter(goTrials, (t: Record) => Pressed(t) && HasRt(t));
    var meanCorrectGo := Mean(Rts(correctGoWithRt));
    var bothSplit := postErrorRTs != [] && postCorrectRTs != [];
    var slowingMean := if bothSplit then Difference(Mean(postErrorRTs), Mean(postCorrectRTs)) else None;
    var slowingMedian := if bothSplit then Difference(Median(postErrorRTs), Median(postCorrectRTs)) else None;
    var fastCount := |Filter(allGoWithRt, (t: Record) => Rt(t) < 250)|;
    var trialsWithRt := Filter(data, (t: Record) => Pressed(t) && HasRt(t));
    var reactionTimes := Rts(trialsWithRt);
    var trialNumbers := Map(trialsWithRt, (t: Record) => t.trialNumber);
    SartReport(
      |data|, |goTrials|, |noGoTrials|,
      Percent(|correctTrials|, |data|), Percent(correctGo, |goTrials|), Percent(correctNoGo, |noGoTrials|),
      correctGo, correctNoGo, commissionErrors, omissionErrors,
      Percent(commissionErrors, |noGoTrials|), Percent(omissionErrors, |goTrials|),
      Truthy(meanCorrectGo), Truthy(slowingMean), Truthy(slowingMedian), |postErrorRTs|,
      Truthy(SampleSd(Rts(correctGoWithRt), num)), Truthy(Median(Rts(correctGoWithRt))),
      maxStreak, Percent(fastCount, |allGoWithRt|),
      Truthy(Correlation(trialNumbers, reactionTimes, num)), Truthy(HalfDrift(reactionTimes)),
      Truthy(TotalTime(data)), |correctTrials|, |incorrectTrials|,
      Truthy(Mean(Rts(allGoWithRt))))
  }

  /** `calculateSARTStats(data)`: null for no data. */
  function SartStats(data: seq<Record>, num: Numerics): (r: Option<SartReport>)
    ensures r.None? <==> data == []
  {
    if data == [] then None
    else Some(SartReportOf(data, LongestRun(data), PostErrorRts(data), PostCorrectRts(data), num))
  }

  /** The same report, with the two loops run as loops. */
  method CalculateSartStats(data: seq<Record>, num: Numerics) returns (r: Option<SartReport>)
    ensures r == SartStats(data, num)
  {
    if data == [] {
      return None;
    }
    var maxStreak := MaxStreak(data);
    var postErrorRTs, postCorrectRTs := SplitPostError(data);
    r := Some(SartReportOf(data, maxStreak, postErrorRTs, postCorrectRTs, num));
  }

  /** A SART record whose flags are 0 or 1, as `recordResponse` writes them. */
  predicate BinarySart(r: Record) {
    r.stimulus.DigitStimulus? && 0 <= r.stimulus.go <= 1 && 0 <= r.responseOutcome <= 1 && 0 <= r.response <= 1
  }

  /** Go and No-Go trials, and correct and incorrect responses, each split the SART data. */
  lemma SartCountsAddUp(data: seq<Record>, num: Numerics)
    requires data != []
    requires forall i :: 0 <= i < |data| ==> BinarySart(data[i])
    ensures var r := SartStats(data, num).value;
            && r.goTrialsCount + r.noGoTrialsCount == r.totalTrials
            && r.correctResponses + r.incorrectResponses == r.totalTrials
  {
    FilterComplement(data, IsGoTrial, IsNoGoTrial);
    FilterComplement(data, IsCorrect, IsIncorrect);
  }

  /** Error counts are bounded by their trial kind; rates are percentages, 0 when their base is empty. */
  lemma SartBounds(data: seq<Record>, num: Numerics)
    requires data != []
    ensures var r := SartStats(data, num).value;
            && r.totalTrials == |data|
            && r.commissionErrors <= r.noGoTrialsCount && r.omissionErrors <= r.goTrialsCount
            && r.correctGoTrialsCount <= r.goTrialsCount && r.correctNoGoTrials <= r.noGoTrialsCount
            && (r.noGoTrialsCount == 0 ==> r.noGoAccuracy == 0.0 && r.commissionErrorsPercent == 0.0)
            && (r.goTrialsCount == 0 ==> r.goAccuracy == 0.0 && r.omissionErrorsPercent == 0.0)
            && 0.0 <= r.totalAccuracy <= 100.0 && 0.0 <= r.commissionErrorsPercent <= 100.0
            && 0.0 <= r.omissionErrorsPercent <= 100.0 && 0.0 <= r.fastRTRate <= 100.0
            && r.maxStreak <= r.totalTrials
            && r.postErrorSlowingCount == |PostErrorRts(data)|
            && (PostErrorRts(data) == [] || PostCorrectRts(data) == [] ==>
                  r.postErrorSlowingMean.None? && r.postErrorSlowingMedian.None?)
  {
  }

  /** `maxStreak` in the report is the longest run of correct records. */
  lemma SartStreak(data: seq<Record>, num: Numerics)
    requires data != []
    ensures var r := SartStats(data, num).value;
            && (exists i :: IsRun(data, i, r.maxStreak))
            && forall i, len :: IsRun(data, i, len) ==> len <= r.maxStreak
  {
    LongestRunIsLongest(data);
    var r := SartStats(data, num).value;
    assert r.maxStreak == LongestRun(data);
    var i :| IsRun(data, i, LongestRun(data));
    assert IsRun(data, i, r.maxStreak);
  }

  /** `calculateNBackStats`'s object, in its field order; `toFixed` values are kept as reals. */
  datatype NBackReport = NBackReport(
    totalTrials: nat,
    matchTrialsCount: nat,
    nonMatchTrialsCount: nat,
    totalAccuracy: real,
    matchAccuracy: real,
    nonMatchAccuracy: real,
    correctMatchResponses: nat,
    correctNonMatchResponses: nat,
    falseAlarms: nat,
    misses: nat,
    /** None is reported as the string "N/A". */
    dPrime: Option<real>,
    /** None is reported as the string "N/A". */
    criterionC: Option<real>,
    hitRate: Option<real>,
    falseAlarmRate: Option<real>,
    meanRT_correctMatch: Option<real>,
    sdRT: Option<real>,
    medianRT: Option<real>,
    maxStreak: nat,
    rtDifferenceHitVsFalseAlarm: Option<real>,
    learningTrend: Option<real>,
    totalTime: Option<real>,
    correctResponses: nat,
    incorrectResponses: nat)

  /** The N-back report for non-empty data, given the streak. */
  function NBackReportOf(data: seq<Record>, maxStreak: nat, num: Numerics): NBackReport
  {
    var matchTrials := Filter(data, IsMatchTrial);
    var nonMatchTrials := Filter(data, IsNonMatchTrial);
    var correctTrials := Filter(data, IsCorrect);
    var incorrectTrials := Filter(data, IsIncorrect);
    var correctMatch := |Filter(matchTrials, (t: Record) => Pressed(t) && IsCorrect(t))|;
    var correctNonMatch := |Filter(nonMatchTrials, (t: Record) => NotPressed(t) && IsCorrect(t))|;
    var falseAlarms := |Filter(nonMatchTrials, Pressed)|;
    var misses := |Filter(matchTrials, NotPressed)|;
    var detection := Detect(|matchTrials|, |nonMatchTrials|, |Filter(matchTrials, Pressed)|, falseAlarms, num);
    var hitsWithRt := Filter(matchTrials, (t: Record) => Pressed(t) && IsCorrect(t) && HasRt(t));
    var falseAlarmsWithRt := Filter(nonMatchTrials, (t: Record) => Pressed(t) && HasRt(t));
    var meanHits := Mean(Rts(hitsWithRt));
    NBackReport(
      |data|, |matchTrials|, |nonMatchTrials|,
      Percent(|correctTrials|, |data|),
      Percent(|Filter(matchTrials, IsCorrect)|, |matchTrials|),
      Percent(|Filter(nonMatchTrials, IsCorrect)|, |nonMatchTrials|),
      correctMatch, correctNonMatch, falseAlarms, misses,
      detection.dPrime, detection.criterionC, detection.hitRate, detection.falseAlarmRate,
      Truthy(meanHits), Truthy(SampleSd(Rts(hitsWithRt), num)), Truthy(Median(Rts(hitsWithRt))),
      maxStreak,
      Truthy(Difference(meanHits, Mean(Rts(falseAlarmsWithRt)))),
      Truthy(LearningTrend(data)), Truthy(TotalTime(data)),
      |correctTrials|, |incorrectTrials|)
  }

  /** `calculateNBackStats(data)`: null for no data. */
  function NBackStats(data: seq<Record>, num: Numerics): (r: Option<NBackReport>)
    ensures r.None? <==> data == []
  {
    if data == [] then None else Some(NBackReportOf(data, LongestRun(data), num))
  }

  /** The same report, with the streak loop run as a loop. */
  method CalculateNBackStats(data: seq<Record>, num: Numerics) returns (r: Option<NBackReport>)
    ensures r == NBackStats(data, num)
  {
    if data == [] {
      return None;
    }
    var maxStreak := MaxStreak(data);
    r := Some(NBackReportOf(data, maxStreak, num));
  }

  /** An N-back record whose flags are 0 or 1, as `recordResponse` writes them. */
  predicate BinaryNBack(r: Record) {
    r.stimulus.LetterStimulus? && 0 <= r.stimulus.isMatch <= 1 && 0 <= r.responseOutcome <= 1 && 0 <= r.response <= 1
  }

  lemma NBackCountsAddUp(data: seq<Record>, num: Numerics)
    requires data != []
    requires forall i :: 0 <= i < |data| ==> BinaryNBack(data[i])
    ensures var r := NBackStats(data, num).value;
            && r.matchTrialsCount + r.nonMatchTrialsCount == r.totalTrials
            && r.correctResponses + r.incorrectResponses == r.totalTrials
  {
    FilterComplement(data, IsMatchTrial, IsNonMatchTrial);
    FilterComplement(data, IsCorrect, IsIncorrect);
  }

  /**
   * The signal-detection fields exist only with five match and five
   * non-match trials; the learning trend needs more than 26 records and is
   * reported null when it is exactly 0.
   */
  lemma NBackGating(data: seq<Record>, num: Numerics)
    requires data != []
    ensures var r := NBackStats(data, num).value;
            && r.totalTrials == |data|
            && (r.dPrime.Some? <==> r.matchTrialsCount >= 5 && r.nonMatchTrialsCount >= 5)
            && (r.criterionC.Some? <==> r.dPrime.Some?)
            && (r.hitRate.Some? <==> r.dPrime.Some?)
            && (r.falseAlarmRate.Some? <==> r.dPrime.Some?)
            && r.falseAlarms <= r.nonMatchTrialsCount && r.misses <= r.matchTrialsCount
            && (r.falseAlarmRate.Some? ==> r.falseAlarmRate.value == Percent(r.falseAlarms, r.nonMatchTrialsCount))
            && (|data| <= 26 ==> r.learningTrend.None?)
            && (LearningTrend(data) == Some(0.0) ==> r.learningTrend.None?)
            && r.maxStreak <= r.totalTrials
  {
  }

  /** The whole-session result: a report per task that has real-block records. */
  datatype Stats = Stats(sart: Option<SartReport>, nback: Option<NBackReport>)

  function RealData(data: seq<Record>): seq<Record> {
    Filter(data, (t: Record) => t.blockType == RealBlock)
  }

  function OfTest(data: seq<Record>, testName: string): seq<Record> {
    Filter(data, (t: Record) => t.testName == testName)
  }

  /**
   * `calculateStats(data)`: null for no data; otherwise only real-block
   * records count, and each task's key appears only when it has some.
   */
  function CalculateStats(data: seq<Record>, num: Numerics): (r: Option<Stats>)
    ensures r.None? <==> data == []
    ensures r.Some? ==> (r.value.sart.Some? <==> HasRealRecords(data, SartName))
    ensures r.Some? ==> (r.value.nback.Some? <==> HasRealRecords(data, NBackName))
    ensures r.Some? && r.value.sart.Some? ==> r.value.sart == SartStats(OfTest(RealData(data), SartName), num)
    ensures r.Some? && r.value.nback.Some? ==> r.value.nback == NBackStats(OfTest(RealData(data), NBackName), num)
  {
    if data == [] then None
    else
      var realData := RealData(data);
      var sartData := OfTest(realData, SartName);
      var nbackData := OfTest(realData, NBackName);
      SelectedIff(data, SartName);
      SelectedIff(data, NBackName);
      Some(Stats(if sartData != [] then SartStats(sartData, num) else None,
                 if nbackData != [] then NBackStats(nbackData, num) else None))
  }

  /** Some record comes from the real block of the task. */
  predicate HasRealRecords(data: seq<Record>, testName: string) {
    exists i :: 0 <= i < |data| && data[i].blockType == RealBlock && data[i].testName == testName
  }

  /** A task's selection is non-empty exactly when some record is from its real block. */
  lemma SelectedIff(data: seq<Record>, testName: string)
    ensures OfTest(RealData(data), testName) != [] <==> HasRealRecords(data, testName)
  {
    var selected := OfTest(RealData(data), testName);
    if selected != [] {
      var x := selected[0];
      assert x in RealData(data);
      var i :| 0 <= i < |data| && data[i] == x;
    }
    if HasRealRecords(data, testName) {
      var i :| 0 <= i < |data| && data[i].blockType == RealBlock && data[i].testName == testName;
      assert data[i] in RealData(data);
      var j :| 0 <= j < |RealData(data)| && RealData(data)[j] == data[i];
      assert data[i] in selected;
    }
  }
}
