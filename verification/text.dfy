/** The string operations the assistant applies to model output, feed titles
    and tool arguments: upper-casing, substring search, whitespace stripping,
    newline replacement, and joining and splitting on "\n". */
module Text {

  /* ---------- Case ---------- */

  predicate IsLowerLetter(c: char) { 'a' <= c <= 'z' }

  predicate IsUpperLetter(c: char) { 'A' <= c <= 'Z' }

  /** Upper-cases an ASCII letter and leaves every other character alone. */
  function UpperChar(c: char): char
  {
    if IsLowerLetter(c) then (c as int - 32) as char else c
  }

  function LowerChar(c: char): char
  {
    if IsUpperLetter(c) then (c as int + 32) as char else c
  }

  /** `s.upper()`, restricted to ASCII letters. */
  function Upper(s: string): (r: string)
    ensures |r| == |s|
    ensures forall i :: 0 <= i < |s| ==> r[i] == UpperChar(s[i])
  {
    seq(|s|, i requires 0 <= i < |s| => UpperChar(s[i]))
  }

  /** A string with no lower-case letter, such as every label and key the
      program compares an upper-cased string with. */
  predicate NoLower(t: string)
  {
    forall i :: 0 <= i < |t| ==> !IsLowerLetter(t[i])
  }

  /** Reference definition of "equal up to case": position by position, the
      character is the one of `t`, or the lower-case form of an upper-case
      letter of `t`. */
  predicate MatchesIgnoringCase(s: string, t: string)
  {
    && |s| == |t|
    && forall i :: 0 <= i < |s| ==>
         s[i] == t[i] || (IsUpperLetter(t[i]) && s[i] == LowerChar(t[i]))
  }

  lemma UpperCharIff(c: char, d: char)
    requires !IsLowerLetter(d)
    ensures UpperChar(c) == d <==> (c == d || (IsUpperLetter(d) && c == LowerChar(d)))
  {
  }

  /** Comparing `Upper(s)` with a label that has no lower-case letter is the
      same as comparing `s` with it while ignoring case. */
  lemma UpperEqualsIff(s: string, t: string)
    requires NoLower(t)
    ensures Upper(s) == t <==> MatchesIgnoringCase(s, t)
  {
    if MatchesIgnoringCase(s, t) {
      forall i | 0 <= i < |s|
        ensures Upper(s)[i] == t[i]
      {
        UpperCharIff(s[i], t[i]);
      }
    }
    if Upper(s) == t {
      forall i | 0 <= i < |s|
        ensures s[i] == t[i] || (IsUpperLetter(t[i]) && s[i] == LowerChar(t[i]))
      {
        assert Upper(s)[i] == t[i];
        UpperCharIff(s[i], t[i]);
      }
    }
  }

  /* ---------- Substrings ---------- */

  /** `p in s` on Python strings. */
  function Contains(s: string, p: string): bool
    decreases |s|
  {
    if |s| < |p| then false
    else s[..|p|] == p || Contains(s[1..], p)
  }

  predicate OccursAt(s: string, p: string, i: int)
  {
    0 <= i && i + |p| <= |s| && s[i..i + |p|] == p
  }

  /** `Contains` finds `p` exactly when `p` occurs at some position of `s`. */
  lemma {:induction false} ContainsIff(s: string, p: string)
    ensures Contains(s, p) <==> exists i :: OccursAt(s, p, i)
    decreases |s|
  {
    if |s| < |p| {
    } else if s[..|p|] == p {
      assert OccursAt(s, p, 0);
    } else {
      ContainsIff(s[1..], p);
      if exists i :: OccursAt(s[1..], p, i) {
        var i :| OccursAt(s[1..], p, i);
        assert s[1..][i..i + |p|] == s[i + 1..i + 1 + |p|];
        assert OccursAt(s, p, i + 1);
      }
      if exists i :: OccursAt(s, p, i) {
        var i :| OccursAt(s, p, i);
        assert i != 0;
        assert s[1..][i - 1..i - 1 + |p|] == s[i..i + |p|];
        assert OccursAt(s[1..], p, i - 1);
      }
    }
  }

  predicate OccursIgnoringCaseAt(s: string, t: string, i: int)
  {
    0 <= i && i + |t| <= |s| && MatchesIgnoringCase(s[i..i + |t|], t)
  }

  /** Searching the upper-cased text for a label with no lower-case letter
      finds it exactly when the label occurs in the original text up to
      case. */
  lemma UpperContainsIff(s: string, t: string)
    requires NoLower(t)
    ensures Contains(Upper(s), t) <==> exists i :: OccursIgnoringCaseAt(s, t, i)
  {
    ContainsIff(Upper(s), t);
    if exists i :: OccursAt(Upper(s), t, i) {
      var i :| OccursAt(Upper(s), t, i);
      assert Upper(s)[i..i + |t|] == Upper(s[i..i + |t|]);
      UpperEqualsIff(s[i..i + |t|], t);
      assert OccursIgnoringCaseAt(s, t, i);
    }
    if exists i :: OccursIgnoringCaseAt(s, t, i) {
      var i :| OccursIgnoringCaseAt(s, t, i);
      assert Upper(s)[i..i + |t|] == Upper(s[i..i + |t|]);
      UpperEqualsIff(s[i..i + |t|], t);
      assert OccursAt(Upper(s), t, i);
    }
  }

  /* ---------- Whitespace ---------- */

  /** The characters Python's `str.isspace` (and so `str.strip()`) treats as
      whitespace. */
  predicate IsSpace(c: char)
  {
    || c == ' ' || c == '\t' || c == '\n' || c == '\r'
    || c == '\U{000B}' || c == '\U{000C}'
    || ('\U{001C}' <= c <= '\U{001F}')
    || c == '\U{0085}' || c == '\U{00A0}' || c == '\U{1680}'
    || ('\U{2000}' <= c <= '\U{200A}')
    || c == '\U{2028}' || c == '\U{2029}' || c == '\U{202F}' || c == '\U{205F}'
    || c == '\U{3000}'
  }

  predicate AllSpace(s: string)
  {
    forall k :: 0 <= k < |s| ==> IsSpace(s[k])
  }

  /** The first position at or after `i` that does not hold whitespace, or
      `|s|` when there is none. */
  function SkipSpace(s: string, i: nat): (n: nat)
    requires i <= |s|
    ensures i <= n <= |s|
    ensures forall k :: i <= k < n ==> IsSpace(s[k])
    ensures n == |s| || !IsSpace(s[n])
    decreases |s| - i
  {
    if i < |s| && IsSpace(s[i]) then SkipSpace(s, i + 1) else i
  }

  /** The end of `s[lo..j]` once its trailing whitespace is dropped. */
  function SkipSpaceBack(s: string, lo: nat, j: nat): (n: nat)
    requires lo <= j <= |s|
    ensures lo <= n <= j
    ensures forall k :: n <= k < j ==> IsSpace(s[k])
    ensures n == lo || !IsSpace(s[n - 1])
    decreases j
  {
    if lo < j && IsSpace(s[j - 1]) then SkipSpaceBack(s, lo, j - 1) else j
  }

  /** `r` is the slice of `s` that starts at `i`, with only whitespace
      around it and no whitespace at either of its ends. */
  predicate IsStripAt(r: string, s: string, i: int)
  {
    && 0 <= i && i + |r| <= |s| && r == s[i..i + |r|]
    && (forall k :: 0 <= k < i ==> IsSpace(s[k]))
    && (forall k :: i + |r| <= k < |s| ==> IsSpace(s[k]))
    && (r == [] || (!IsSpace(r[0]) && !IsSpace(r[|r| - 1])))
  }

  /** `s.strip()`: the slice that starts after the leading whitespace. */
  function Strip(s: string): (r: string)
    ensures IsStripAt(r, s, SkipSpace(s, 0))
  {
    var lo := SkipSpace(s, 0);
    s[lo..SkipSpaceBack(s, lo, |s|)]
  }

  /** Stripping leaves nothing exactly when the text is all whitespace. */
  lemma StripEmptyIff(s: string)
    ensures Strip(s) == [] <==> AllSpace(s)
  {
    var lo := SkipSpace(s, 0);
    assert lo < |s| ==> !IsSpace(s[lo]);
  }

  /** `s.replace(a, b)` for single characters. */
  function ReplaceChar(s: string, a: char, b: char): (r: string)
    ensures |r| == |s|
    ensures forall i :: 0 <= i < |s| ==> r[i] == (if s[i] == a then b else s[i])
  {
    seq(|s|, i requires 0 <= i < |s| => if s[i] == a then b else s[i])
  }

  /* ---------- Lines ---------- */

  /** `"\n".join(lines)`. */
  function JoinLines(lines: seq<string>): string
  {
    if |lines| == 0 then ""
    else if |lines| == 1 then lines[0]
    else lines[0] + "\n" + JoinLines(lines[1..])
  }

  /** Position of the first newline of `s`, or `|s|` when there is none. */
  function NewlineIndex(s: string): (i: nat)
    ensures i <= |s|
    ensures forall k :: 0 <= k < i ==> s[k] != '\n'
    ensures i < |s| ==> s[i] == '\n'
    decreases |s|
  {
    if |s| == 0 then 0
    else if s[0] == '\n' then 0
    else 1 + NewlineIndex(s[1..])
  }

  /** `s.split("\n")`. */
  function SplitLines(s: string): (r: seq<string>)
    ensures |r| >= 1
    decreases |s|
  {
    var i := NewlineIndex(s);
    if i == |s| then [s] else [s[..i]] + SplitLines(s[i + 1..])
  }

  predicate NoNewline(s: string)
  {
    '\n' !in s
  }

  lemma NewlineIndexOfLine(l: string, rest: string)
    requires NoNewline(l)
    ensures NewlineIndex(l) == |l|
    ensures NewlineIndex(l + "\n" + rest) == |l|
  {
    var s := l + "\n" + rest;
    assert s[|l|] == '\n';
  }

  /** Splitting joined lines gives the lines back, as long as none of them
      holds a newline. */
  lemma {:induction false} SplitJoin(lines: seq<string>)
    requires |lines| >= 1
    requires forall j :: 0 <= j < |lines| ==> NoNewline(lines[j])
    ensures SplitLines(JoinLines(lines)) == lines
    decreases |lines|
  {
    if |lines| == 1 {
      NewlineIndexOfLine(lines[0], "");
    } else {
      var l := lines[0];
      var rest := JoinLines(lines[1..]);
      var s := l + "\n" + rest;
      NewlineIndexOfLine(l, rest);
      assert s[..|l|] == l;
      assert s[|l| + 1..] == rest;
      SplitJoin(lines[1..]);
      assert lines == [l] + lines[1..];
    }
  }

  /** Joining the pieces of a split gives the text back, and no piece holds
      a newline. */
  lemma {:induction false} JoinSplit(s: string)
    ensures JoinLines(SplitLines(s)) == s
    ensures forall j :: 0 <= j < |SplitLines(s)| ==> NoNewline(SplitLines(s)[j])
    decreases |s|
  {
    var i := NewlineIndex(s);
    if i < |s| {
      JoinSplit(s[i + 1..]);
      var tail := SplitLines(s[i + 1..]);
      assert SplitLines(s) == [s[..i]] + tail;
      assert SplitLines(s)[1..] == tail;
      assert s == s[..i] + "\n" + s[i + 1..];
    }
  }
}
