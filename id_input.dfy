/**
 * Subject-ID entry (js/idInput.js): the `^[A-Z]{2}[0-9]{2}$` format check,
 * the input filter that upper-cases and strips what the user types, and
 * the decision `handleSubmit` makes. The page itself is not modelled.
 */
module IdInput {
  import opened Seqs

  predicate IsUpper(c: char) { 'A' <= c <= 'Z' }
  predicate IsDigit(c: char) { '0' <= c <= '9' }

  /** A character the filter keeps: `[A-Z0-9]`. */
  predicate IsIdChar(c: char) { IsUpper(c) || IsDigit(c) }

  // ---------------------------------------------------------------------
  // validateID (js/idInput.js:74-78)
  // ---------------------------------------------------------------------

  /** A bracket class `[lo-hi]` of a regular expression. */
  datatype CharClass = Range(lo: char, hi: char)

  predicate InClass(c: char, k: CharClass) { k.lo <= c <= k.hi }

  /** An anchored pattern of single-character classes matches exactly the strings of its length, class by class. */
  predicate MatchesAnchored(pattern: seq<CharClass>, s: string) {
    if pattern == [] then s == []
    else s != [] && InClass(s[0], pattern[0]) && MatchesAnchored(pattern[1..], s[1..])
  }

  /** `^[A-Z]{2}[0-9]{2}$` with the repetitions written out. */
  const IdPattern: seq<CharClass> := [Range('A', 'Z'), Range('A', 'Z'), Range('0', '9'), Range('0', '9')]

  /** `validateID`: two upper-case letters, then two digits, and nothing else. */
  function ValidateId(id: string): (ok: bool)
    ensures ok <==> |id| == 4 && IsUpper(id[0]) && IsUpper(id[1]) && IsDigit(id[2]) && IsDigit(id[3])
  {
    MatchesClassByClass(IdPattern, id);
    MatchesAnchored(IdPattern, id)
  }

  /** The matcher accepts exactly the strings of the pattern's length whose i-th character is in the i-th class. */
  lemma {:induction false} MatchesClassByClass(pattern: seq<CharClass>, s: string)
    ensures MatchesAnchored(pattern, s) <==>
            |s| == |pattern| && forall i :: 0 <= i < |s| ==> InClass(s[i], pattern[i])
  {
    if pattern != [] && s != [] {
      MatchesClassByClass(pattern[1..], s[1..]);
      if |s| == |pattern| && forall i :: 0 <= i < |s| - 1 ==> InClass(s[1..][i], pattern[1..][i]) {
        forall i | 0 < i < |s|
          ensures InClass(s[i], pattern[i])
        {
          assert s[i] == s[1..][i - 1] && pattern[i] == pattern[1..][i - 1];
        }
      }
    }
  }

  // ---------------------------------------------------------------------
  // The input filter (js/idInput.js:52-56)
  // ---------------------------------------------------------------------

  /** `toUpperCase()` on one character, for ASCII letters. */
  function UpperChar(c: char): (u: char)
    ensures 'a' <= c <= 'z' ==> u == (c as int - 32) as char && IsUpper(u)
    ensures !('a' <= c <= 'z') ==> u == c
  {
    if 'a' <= c <= 'z' then (c as int - 32) as char else c
  }

  /** `value.toUpperCase().replace(/[^A-Z0-9]/g, "")`. */
  function Normalize(value: string): (r: string)
    ensures |r| <= |value|
    ensures forall i :: 0 <= i < |r| ==> IsIdChar(r[i])
  {
    if value == [] then []
    else
      var u := UpperChar(value[0]);
      (if IsIdChar(u) then [u] else []) + Normalize(value[1..])
  }

  /** The filter upper-cases, then keeps exactly the `[A-Z0-9]` characters, in order. */
  lemma {:induction false} NormalizeIsUpperThenFilter(value: string)
    ensures Normalize(value) == Filter(Map(value, UpperChar), IsIdChar)
  {
    if value != [] {
      var init := value[..|value| - 1];
      var last := value[|value| - 1];
      NormalizeSnoc(init, last);
      assert value == init + [last];
      NormalizeIsUpperThenFilter(init);
      var mapped := Map(value, UpperChar);
      assert mapped[..|mapped| - 1] == Map(init, UpperChar);
    }
  }

  lemma {:induction false} NormalizeSnoc(init: string, last: char)
    ensures Normalize(init + [last]) ==
            Normalize(init) + (if IsIdChar(UpperChar(last)) then [UpperChar(last)] else [])
  {
    if init == [] {
      assert ([] + [last])[1..] == [];
    } else {
      assert (init + [last])[0] == init[0];
      assert (init + [last])[1..] == init[1..] + [last];
      NormalizeSnoc(init[1..], last);
    }
  }

  /** A string of ID characters passes the filter unchanged. */
  lemma {:induction false} NormalizeKeepsIdChars(value: string)
    requires forall i :: 0 <= i < |value| ==> IsIdChar(value[i])
    ensures Normalize(value) == value
  {
    if value != [] {
      NormalizeKeepsIdChars(value[1..]);
      assert value == [value[0]] + value[1..];
    }
  }

  /** Filtering what has been filtered changes nothing. */
  lemma NormalizeIdempotent(value: string)
    ensures Normalize(Normalize(value)) == Normalize(value)
  {
    NormalizeKeepsIdChars(Normalize(value));
  }

  /** Every valid ID is left alone by the filter. */
  lemma ValidIdIsNormalized(id: string)
    requires ValidateId(id)
    ensures Normalize(id) == id
  {
    NormalizeKeepsIdChars(id);
  }

  // ---------------------------------------------------------------------
  // handleSubmit (js/idInput.js:91-109)
  // ---------------------------------------------------------------------

  /** The characters `String.prototype.trim` removes: white space and line terminators. */
  predicate IsJsWhitespace(c: char) {
    c == '\t' || c == '\n' || c == '\U{000B}' || c == '\U{000C}' || c == '\r' || c == ' ' ||
    c == '\U{00A0}' || c == '\U{1680}' || ('\U{2000}' <= c <= '\U{200A}') ||
    c == '\U{2028}' || c == '\U{2029}' || c == '\U{202F}' || c == '\U{205F}' ||
    c == '\U{3000}' || c == '\U{FEFF}'
  }

  function TrimStart(s: string): (r: string)
    ensures |r| <= |s| && r == s[|s| - |r|..]
    ensures r != [] ==> !IsJsWhitespace(r[0])
    ensures forall i :: 0 <= i < |s| - |r| ==> IsJsWhitespace(s[i])
  {
    if s != [] && IsJsWhitespace(s[0]) then TrimStart(s[1..]) else s
  }

  function TrimEnd(s: string): (r: string)
    ensures |r| <= |s| && r == s[..|r|]
    ensures r != [] ==> !IsJsWhitespace(r[|r| - 1])
    ensures forall i :: |r| <= i < |s| ==> IsJsWhitespace(s[i])
  {
    if s != [] && IsJsWhitespace(s[|s| - 1]) then TrimEnd(s[..|s| - 1]) else s
  }

  /** `value.trim()`: the middle of the string, with only white space cut away at either end. */
  function Trim(s: string): (r: string)
    ensures r != [] ==> !IsJsWhitespace(r[0]) && !IsJsWhitespace(r[|r| - 1])
    ensures var k := |s| - |TrimStart(s)|; k + |r| <= |s| && r == s[k..k + |r|]
  {
    TrimEnd(TrimStart(s))
  }

  /** What trimming cuts away is white space only. */
  lemma TrimCutsWhitespace(s: string)
    ensures var k := |s| - |TrimStart(s)|;
            var r := Trim(s);
            && (forall i :: 0 <= i < k ==> IsJsWhitespace(s[i]))
            && (forall i :: k + |r| <= i < |s| ==> IsJsWhitespace(s[i]))
  {
    var t := TrimStart(s);
    var k := |s| - |t|;
    var r := Trim(s);
    forall i | k + |r| <= i < |s|
      ensures IsJsWhitespace(s[i])
    {
      assert s[i] == t[i - k];
    }
  }

  lemma IdCharIsNotWhitespace(c: char)
    requires IsIdChar(c)
    ensures !IsJsWhitespace(c)
  {
  }

  /** The filter's output has no white space to trim. */
  lemma TrimOfNormalized(value: string)
    ensures Trim(Normalize(value)) == Normalize(value)
  {
    var n := Normalize(value);
    if n != [] {
      IdCharIsNotWhitespace(n[0]);
      assert TrimStart(n) == n;
      IdCharIsNotWhitespace(n[|n| - 1]);
      assert TrimEnd(n) == n;
    }
  }

  const EmptyIdMessage: string := "Prosím, zadajte vaše ID"
  const FormatMessage: string := "ID musí mať formát: 2 veľké písmená + 2 čísla (napr. AB12)"

  /** What a submit does: show an error, or hand the ID on to `onSubmit` once. */
  datatype SubmitOutcome = ShowError(message: string) | Submit(id: string)

  /** `handleSubmit` on the input's current value. */
  function HandleSubmit(value: string): (r: SubmitOutcome)
    ensures Trim(value) == [] ==> r == ShowError(EmptyIdMessage)
    ensures Trim(value) != [] && !ValidateId(Trim(value)) ==> r == ShowError(FormatMessage)
    ensures r.Submit? <==> ValidateId(Trim(value))
    ensures r.Submit? ==> r.id == Trim(value)
  {
    var id := Trim(value);
    if id == [] then ShowError(EmptyIdMessage)
    else if !ValidateId(id) then ShowError(FormatMessage)
    else Submit(id)
  }

  /** What is handed on is a four-character ID the filter would not change. */
  lemma SubmittedIdIsNormal(value: string)
    requires HandleSubmit(value).Submit?
    ensures var id := HandleSubmit(value).id;
            |id| == 4 && Normalize(id) == id && ValidateId(id)
  {
    ValidIdIsNormalized(HandleSubmit(value).id);
  }

  /** After the filter has run, a submit hands on the filtered text exactly when it is a valid ID. */
  lemma SubmitAfterFilter(typed: string)
    ensures var n := Normalize(typed);
            HandleSubmit(n) == if n == [] then ShowError(EmptyIdMessage)
                               else if ValidateId(n) then Submit(n)
                               else ShowError(FormatMessage)
  {
    TrimOfNormalized(typed);
  }
}
