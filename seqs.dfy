/** Small sequence operations the JavaScript array methods stand for. */
module Seqs {

  /** `n` copies of `x` (none when `n` is not positive, like a `for` loop that never runs). */
  function Repeat<T>(x: T, n: int): (r: seq<T>)
    ensures |r| == if n < 0 then 0 else n
    ensures forall i :: 0 <= i < |r| ==> r[i] == x
  {
    if n <= 0 then [] else Repeat(x, n - 1) + [x]
  }

  /** `s.filter(e => e !== x)`. */
  function FilterOut<T(==)>(s: seq<T>, x: T): (r: seq<T>)
    ensures forall e :: e in r ==> e != x && e in s
    ensures forall e :: e in s && e != x ==> e in r
    ensures |r| <= |s|
  {
    if s == [] then []
    else if s[0] == x then FilterOut(s[1..], x)
    else [s[0]] + FilterOut(s[1..], x)
  }

  /** Filtering one element out of a list without duplicates that holds it drops exactly one entry. */
  lemma {:induction false} FilterOutDistinct<T>(s: seq<T>, x: T)
    requires x in s
    requires forall i, j :: 0 <= i < j < |s| ==> s[i] != s[j]
    ensures |FilterOut(s, x)| == |s| - 1
  {
    if s[0] == x {
      assert x !in s[1..];
      FilterOutAbsent(s[1..], x);
    } else {
      FilterOutDistinct(s[1..], x);
    }
  }

  /** Filtering out a value that does not occur changes nothing. */
  lemma {:induction false} FilterOutAbsent<T>(s: seq<T>, x: T)
    requires x !in s
    ensures FilterOut(s, x) == s
  {
    if s != [] {
      FilterOutAbsent(s[1..], x);
    }
  }

  /** Filtering out a value that occurs once, at `i`, removes just that position. */
  lemma {:induction false} FilterOutOnce<T>(s: seq<T>, i: nat, x: T)
    requires i < |s| && s[i] == x && x !in s[..i] && x !in s[i + 1..]
    ensures FilterOut(s, x) == s[..i] + s[i + 1..]
  {
    if i == 0 {
      FilterOutAbsent(s[1..], x);
    } else {
      assert s[1..][..i - 1] == s[1..i] && s[1..][i..] == s[i + 1..];
      FilterOutOnce(s[1..], i - 1, x);
      assert s[..i] == [s[0]] + s[1..i];
    }
  }

  /** Filtering `x` out of `a + [x] + b`, where neither side holds `x`, leaves `a + b`. */
  lemma FilterOutMiddle<T>(a: seq<T>, x: T, b: seq<T>)
    requires x !in a && x !in b
    ensures FilterOut(a + [x] + b, x) == a + b
  {
    var s := a + [x] + b;
    assert s[..|a|] == a && s[|a|] == x && s[|a| + 1..] == b;
    FilterOutOnce(s, |a|, x);
  }

  /** When nothing is left after filtering out `x`, every element was `x`. */
  lemma FilterOutEmpty<T>(s: seq<T>, x: T)
    requires FilterOut(s, x) == []
    ensures forall e :: e in s ==> e == x
  {
  }

  /** `s.indexOf(x)`: the first index holding `x`, or -1. */
  function IndexOf<T(==)>(s: seq<T>, x: T): (r: int)
    ensures -1 <= r < |s|
  {
    if s == [] then -1
    else if s[0] == x then 0
    else
      var r := IndexOf(s[1..], x);
      if r == -1 then -1 else r + 1
  }

  /** `indexOf` answers -1 exactly when `x` is absent, and otherwise a position holding `x`. */
  lemma {:induction false} IndexOfFinds<T>(s: seq<T>, x: T)
    ensures IndexOf(s, x) == -1 <==> x !in s
    ensures 0 <= IndexOf(s, x) ==> s[IndexOf(s, x)] == x
  {
    if s != [] && s[0] != x {
      IndexOfFinds(s[1..], x);
      assert s == [s[0]] + s[1..];
    }
  }

  /** The position `indexOf` finds is the first one holding `x`. */
  lemma {:induction false} IndexOfIsFirst<T>(s: seq<T>, x: T, j: nat)
    requires j < IndexOf(s, x)
    ensures s[j] != x
  {
    if j > 0 {
      IndexOfIsFirst(s[1..], x, j - 1);
    }
  }

  /** `s.splice(i, 1)` on a copy: the list without position `i`. */
  function RemoveAt<T>(s: seq<T>, i: nat): (r: seq<T>)
    requires i < |s|
    ensures |r| == |s| - 1
    ensures multiset(r) == multiset(s) - multiset{s[i]}
    ensures forall e :: e in r ==> e in s
  {
    assert s == s[..i] + [s[i]] + s[i + 1..];
    s[..i] + s[i + 1..]
  }

  /** How many elements of `s` equal `x`. */
  function Count<T(==)>(s: seq<T>, x: T): (n: nat)
    ensures n == multiset(s)[x]
  {
    if s == [] then 0
    else
      assert s == [s[0]] + s[1..];
      (if s[0] == x then 1 else 0) + Count(s[1..], x)
  }

  /** `s.filter(p)`: the elements satisfying `p`, in their original order. */
  function Filter<T>(s: seq<T>, p: T -> bool): (r: seq<T>)
    ensures |r| <= |s|
    ensures forall i :: 0 <= i < |r| ==> p(r[i])
    ensures forall i :: 0 <= i < |r| ==> r[i] in s
    ensures forall i :: 0 <= i < |s| && p(s[i]) ==> s[i] in r
  {
    if s == [] then []
    else Filter(s[..|s| - 1], p) + (if p(s[|s| - 1]) then [s[|s| - 1]] else [])
  }

  /** Filters by two complementary tests split a list: their sizes add up to its length. */
  lemma {:induction false} FilterComplement<T>(s: seq<T>, p: T -> bool, q: T -> bool)
    requires forall i :: 0 <= i < |s| ==> (p(s[i]) <==> !q(s[i]))
    ensures |Filter(s, p)| + |Filter(s, q)| == |s|
  {
    if s != [] {
      FilterComplement(s[..|s| - 1], p, q);
    }
  }

  /** `s.map(f)`. */
  function Map<T, U>(s: seq<T>, f: T -> U): (r: seq<U>)
    ensures |r| == |s|
    ensures forall i :: 0 <= i < |s| ==> r[i] == f(s[i])
  {
    seq(|s|, i requires 0 <= i < |s| => f(s[i]))
  }
}
