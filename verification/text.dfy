/** String helpers the pages share: JavaScript's `trim`, the "blank after
    trim" test, `toLowerCase` (ASCII letters only), `includes` and the
    "first n characters plus ..." truncation used for hashes, addresses and
    chat messages. */
module Text {

  /** The characters `String.prototype.trim` removes: the white-space
      characters of ECMAScript (tab, vertical tab, form feed, space, no-break
      space, the byte-order mark and every other space separator of Unicode)
      and its four line terminators. */
  predicate IsSpace(c: char) {
    c == ' ' || c == '\t' || c == '\n' || c == '\r' || c == '\U{000B}' || c == '\U{000C}'
    || c == '\U{00A0}' || c == '\U{FEFF}' || c == '\U{2028}' || c == '\U{2029}'
    || c == '\U{1680}' || ('\U{2000}' <= c <= '\U{200A}') || c == '\U{202F}' || c == '\U{205F}'
    || c == '\U{3000}'
  }

  predicate AllSpace(s: string) {
    forall i :: 0 <= i < |s| ==> IsSpace(s[i])
  }

  /** `s` without its leading white space. */
  function TrimStart(s: string): (r: string)
    ensures |r| <= |s| && r == s[|s| - |r|..]
    ensures AllSpace(s[..|s| - |r|])
    ensures r == [] || !IsSpace(r[0])
  {
    if s != [] && IsSpace(s[0]) then
      var r := TrimStart(s[1..]);
      assert s[..|s| - |r|] == [s[0]] + s[1..][..|s| - 1 - |r|];
      r
    else s
  }

  /** `s` without its trailing white space. */
  function TrimEnd(s: string): (r: string)
    ensures |r| <= |s| && r == s[..|r|]
    ensures AllSpace(s[|r|..])
    ensures r == [] || !IsSpace(r[|r| - 1])
  {
    if s != [] && IsSpace(s[|s| - 1]) then
      var r := TrimEnd(s[..|s| - 1]);
      assert s[|r|..] == s[..|s| - 1][|r|..] + [s[|s| - 1]];
      r
    else s
  }

  /** `s.trim()`: what is left once white space is taken off both ends of
      `s`; nothing is left exactly when `s` is all white space, and
      otherwise what is left starts and ends with another character. */
  function Trim(s: string): (r: string)
    ensures |r| <= |s|
    ensures SpaceTrimmedFrom(s, r)
    ensures r == [] <==> AllSpace(s)
    ensures r != [] ==> !IsSpace(r[0]) && !IsSpace(r[|r| - 1])
  {
    TrimsToEmptyIffAllSpace(s);
    TrimEndsNonSpace(s);
    TrimBothEnds(s);
    TrimEnd(TrimStart(s))
  }

  /** `r` is left of `s` after white-space characters are taken off either
      end, one at a time. */
  predicate SpaceTrimmedFrom(s: string, r: string)
    decreases |s|
  {
    r == s
    || (s != [] && IsSpace(s[0]) && SpaceTrimmedFrom(s[1..], r))
    || (s != [] && IsSpace(s[|s| - 1]) && SpaceTrimmedFrom(s[..|s| - 1], r))
  }

  /** `r` is `s[i..j]`, with nothing but white space before and after it. */
  predicate SliceAt(s: string, r: string, i: int, j: int) {
    0 <= i <= j <= |s| && r == s[i..j] && AllSpace(s[..i]) && AllSpace(s[j..])
  }

  /** What is trimmed from `s` is such a slice of `s`. */
  lemma {:induction false} TrimmedFromIsSlice(s: string, r: string)
    requires SpaceTrimmedFrom(s, r)
    ensures exists i, j :: SliceAt(s, r, i, j)
    decreases |s|
  {
    if r == s {
      assert SliceAt(s, r, 0, |s|);
    } else if s != [] && IsSpace(s[0]) && SpaceTrimmedFrom(s[1..], r) {
      TrimmedFromIsSlice(s[1..], r);
      var i, j :| SliceAt(s[1..], r, i, j);
      SliceAfterSpace(s, r, i, j);
    } else {
      TrimmedFromIsSlice(s[..|s| - 1], r);
      var i, j :| SliceAt(s[..|s| - 1], r, i, j);
      SliceBeforeSpace(s, r, i, j);
    }
  }

  lemma SliceAfterSpace(s: string, r: string, i: int, j: int)
    requires s != [] && IsSpace(s[0]) && SliceAt(s[1..], r, i, j)
    ensures SliceAt(s, r, i + 1, j + 1)
  {
    assert s[..i + 1] == [s[0]] + s[1..][..i];
    assert s[j + 1..] == s[1..][j..];
  }

  lemma SliceBeforeSpace(s: string, r: string, i: int, j: int)
    requires s != [] && IsSpace(s[|s| - 1]) && SliceAt(s[..|s| - 1], r, i, j)
    ensures SliceAt(s, r, i, j)
  {
    assert s[..i] == s[..|s| - 1][..i];
    assert s[j..] == s[..|s| - 1][j..] + [s[|s| - 1]];
  }

  /** Trimming the start and then the end takes white space off both ends. */
  lemma TrimBothEnds(s: string)
    ensures SpaceTrimmedFrom(s, TrimEnd(TrimStart(s)))
  {
    TrimStartTrims(s);
    TrimEndTrims(TrimStart(s));
    TrimmedFromTransitive(s, TrimStart(s), TrimEnd(TrimStart(s)));
  }

  lemma {:induction false} TrimStartTrims(s: string)
    ensures SpaceTrimmedFrom(s, TrimStart(s))
    decreases |s|
  {
    if s != [] && IsSpace(s[0]) {
      TrimStartTrims(s[1..]);
    }
  }

  lemma {:induction false} TrimEndTrims(s: string)
    ensures SpaceTrimmedFrom(s, TrimEnd(s))
    decreases |s|
  {
    if s != [] && IsSpace(s[|s| - 1]) {
      TrimEndTrims(s[..|s| - 1]);
    }
  }

  lemma {:induction false} TrimmedFromTransitive(s: string, t: string, r: string)
    requires SpaceTrimmedFrom(s, t) && SpaceTrimmedFrom(t, r)
    ensures SpaceTrimmedFrom(s, r)
    decreases |s|
  {
    if t == s {
    } else if s != [] && IsSpace(s[0]) && SpaceTrimmedFrom(s[1..], t) {
      TrimmedFromTransitive(s[1..], t, r);
    } else {
      TrimmedFromTransitive(s[..|s| - 1], t, r);
    }
  }

  lemma TrimEndsNonSpace(s: string)
    ensures var r := TrimEnd(TrimStart(s));
      r != [] ==> !IsSpace(r[0]) && !IsSpace(r[|r| - 1])
  {
    var t := TrimStart(s);
    var r := TrimEnd(t);
    if r != [] {
      assert r[0] == t[0];
    }
  }

  lemma TrimsToEmptyIffAllSpace(s: string)
    ensures TrimEnd(TrimStart(s)) == [] <==> AllSpace(s)
  {
    var t := TrimStart(s);
    if TrimEnd(t) == [] {
      // t starts with a non-space, yet all of it is space: t is empty.
      assert AllSpace(t[0..]);
      assert t == [];
      assert s[..|s| - |t|] == s;
    } else {
      assert TrimEnd(t) != [];
      assert t != [] && !IsSpace(t[0]);
      assert s[|s| - |t|] == t[0];
    }
  }

  /** `!s.trim()`: nothing but white space. It is stated without `Trim`, so
      that a guard on it does not bring the facts about trimming along;
      `BlankIffTrimsToEmpty` shows it is the same test. */
  predicate IsBlank(s: string) {
    AllSpace(s)
  }

  lemma BlankIffTrimsToEmpty(s: string)
    ensures IsBlank(s) <==> Trim(s) == ""
  {
  }

  /** Trimming a string without white space at either end changes nothing. */
  lemma TrimOfTrimmed(s: string)
    requires s == [] || (!IsSpace(s[0]) && !IsSpace(s[|s| - 1]))
    ensures Trim(s) == s
  {
  }

  /** `toLowerCase` on one character, restricted to the ASCII letters. */
  function LowerChar(c: char): (r: char)
    ensures 'A' <= c <= 'Z' ==> 'a' <= r <= 'z'
    ensures !('A' <= c <= 'Z') ==> r == c
  {
    if 'A' <= c <= 'Z' then (c as int - 'A' as int + 'a' as int) as char else c
  }

  function Lower(s: string): (r: string)
    ensures |r| == |s|
    ensures forall i :: 0 <= i < |s| ==> r[i] == LowerChar(s[i])
  {
    if s == [] then [] else [LowerChar(s[0])] + Lower(s[1..])
  }

  predicate OccursAt(s: string, sub: string, i: nat) {
    i + |sub| <= |s| && s[i..i + |sub|] == sub
  }

  /** `s.includes(sub)`. */
  predicate Contains(s: string, sub: string) {
    exists i: nat | i <= |s| :: OccursAt(s, sub, i)
  }

  lemma EmptyContained(s: string)
    ensures Contains(s, "")
  {
    assert OccursAt(s, "", 0);
  }

  /** A text never contains anything longer than itself. */
  lemma LongerNotContained(s: string, sub: string)
    requires |sub| > |s|
    ensures !Contains(s, sub)
  {
  }

  /** `s.includes(sub)` compared after lower-casing both. */
  predicate ContainsIgnoringCase(s: string, sub: string) {
    Contains(Lower(s), Lower(sub))
  }

  /** `s.length > n ? s.substring(0, n) + '...' : s`. */
  function Truncate(s: string, n: nat): (r: string)
    ensures |s| <= n ==> r == s
    ensures |s| > n ==> |r| == n + 3 && r[..n] == s[..n] && r[n..] == "..."
  {
    if |s| > n then s[..n] + "..." else s
  }

  /** A truncated text is never longer than the limit plus the ellipsis, and
      it always starts with the first min(n, |s|) characters of the input. */
  lemma TruncateBounds(s: string, n: nat)
    ensures |Truncate(s, n)| <= n + 3
    ensures var k := if |s| < n then |s| else n; Truncate(s, n)[..k] == s[..k]
  {
  }
}
