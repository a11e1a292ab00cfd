/** String primitives the core relies on: `toLowerCase`, `trim`, `includes` and
    `replace` with a string pattern. Strings are sequences of characters; case
    mapping is the fixed ASCII mapping (no Unicode case folding). */
module Text {
  import opened Wrappers

  /** `toLowerCase` on one character: 'A'..'Z' map to 'a'..'z', all else is kept. */
  function LowerChar(c: char): char {
    if 'A' <= c <= 'Z' then (c as int + 32) as char else c
  }

  /** `toLowerCase` on a string, character by character. */
  function ToLower(s: string): string {
    seq(|s|, i requires 0 <= i < |s| => LowerChar(s[i]))
  }

  /** The non-ASCII characters `trim` removes: the Unicode space separators,
      the line and paragraph separators and the byte order mark. */
  const WideSpaces: set<char> := {
    '\U{00A0}', '\U{1680}', '\U{2000}', '\U{2001}', '\U{2002}', '\U{2003}',
    '\U{2004}', '\U{2005}', '\U{2006}', '\U{2007}', '\U{2008}', '\U{2009}',
    '\U{200A}', '\U{2028}', '\U{2029}', '\U{202F}', '\U{205F}', '\U{3000}',
    '\U{FEFF}'
  }

  /** The characters `trim` removes: the ECMAScript WhiteSpace and
      LineTerminator code points. In ASCII these are the space and tab, line
      feed, vertical tab, form feed and carriage return ('\t'..'\r'). */
  predicate IsSpace(c: char) {
    c == ' ' || ('\t' <= c <= '\r') || ('\U{00A0}' <= c && c in WideSpaces)
  }

  /** A string that `trim` turns into the empty string (falsy after trimming). */
  predicate IsBlank(s: string) {
    forall i :: 0 <= i < |s| ==> IsSpace(s[i])
  }

  /** The first position at or after `i` that does not hold whitespace. */
  function SkipSpaces(s: string, i: nat): (r: nat)
    requires i <= |s|
    decreases |s| - i
    ensures i <= r <= |s|
    ensures forall k :: i <= k < r ==> IsSpace(s[k])
    ensures r == |s| || !IsSpace(s[r])
  {
    if i < |s| && IsSpace(s[i]) then SkipSpaces(s, i + 1) else i
  }

  /** The end of `s[lo..j]` once its trailing whitespace is dropped. */
  function BackSpaces(s: string, lo: nat, j: nat): (r: nat)
    requires lo <= j <= |s|
    ensures lo <= r <= j
    ensures forall k :: r <= k < j ==> IsSpace(s[k])
    ensures r == lo || !IsSpace(s[r - 1])
  {
    if lo < j && IsSpace(s[j - 1]) then BackSpaces(s, lo, j - 1) else j
  }

  /** How many whitespace characters `trim` removes from the front of `s`. */
  function LeadingSpaces(s: string): nat {
    SkipSpaces(s, 0)
  }

  /** `String.prototype.trim`: the factor of `s` that neither starts nor ends
      with whitespace and has only whitespace before and after it; it is empty
      (falsy) exactly when `s` is all whitespace. */
  function Trim(s: string): (r: string)
    ensures LeadingSpaces(s) + |r| <= |s| && r == s[LeadingSpaces(s)..LeadingSpaces(s) + |r|]
    ensures forall k :: 0 <= k < LeadingSpaces(s) ==> IsSpace(s[k])
    ensures forall k :: LeadingSpaces(s) + |r| <= k < |s| ==> IsSpace(s[k])
    ensures |r| == 0 || (!IsSpace(r[0]) && !IsSpace(r[|r| - 1]))
    ensures |r| == 0 <==> IsBlank(s)
  {
    var a := SkipSpaces(s, 0);
    s[a..BackSpaces(s, a, |s|)]
  }

  /** `pat` occurs in `s` starting at position `k`. */
  predicate OccursAt(s: string, pat: string, k: int) {
    0 <= k && k + |pat| <= |s| && s[k..k + |pat|] == pat
  }

  /** `s.includes(sub)`: `sub` occurs in `s` as a contiguous factor. */
  predicate Contains(s: string, sub: string) {
    exists i | 0 <= i <= |s| :: OccursAt(s, sub, i)
  }

  /** The first position at or after `from` where `pat` occurs in `s`. */
  function IndexFrom(s: string, pat: string, from: nat): (r: Option<nat>)
    decreases |s| - from
    ensures r.Some? ==> from <= r.value && OccursAt(s, pat, r.value)
    ensures r.Some? ==> forall k :: from <= k < r.value ==> !OccursAt(s, pat, k)
    ensures r.None? ==> forall k :: from <= k ==> !OccursAt(s, pat, k)
  {
    if from + |pat| > |s| then None
    else if s[from..from + |pat|] == pat then Some(from)
    else IndexFrom(s, pat, from + 1)
  }

  /** `s.indexOf(pat)`: the first occurrence of `pat` in `s`, if any. */
  function IndexOf(s: string, pat: string): (r: Option<nat>)
    ensures r.None? <==> !Contains(s, pat)
    ensures r.Some? ==> OccursAt(s, pat, r.value)
    ensures r.Some? ==> forall k :: 0 <= k < r.value ==> !OccursAt(s, pat, k)
  {
    IndexFrom(s, pat, 0)
  }

  /** `s.replace(pat, rep)` with a string pattern: only the FIRST occurrence is
      replaced, wherever it is; without an occurrence `s` is returned as it is. */
  function ReplaceFirst(s: string, pat: string, rep: string): (r: string)
    ensures !Contains(s, pat) ==> r == s
    ensures Contains(s, pat) ==> |r| == |s| - |pat| + |rep|
    ensures IndexOf(s, pat).Some? ==>
              var i := IndexOf(s, pat).value;
              r == s[..i] + rep + s[i + |pat|..]
  {
    match IndexOf(s, pat)
    case None => s
    case Some(i) => s[..i] + rep + s[i + |pat|..]
  }

  /** Removing a prefix by `replace(prefix, '')` gives back what followed it. */
  lemma ReplacePrefixGivesRest(prefix: string, rest: string)
    ensures ReplaceFirst(prefix + rest, prefix, "") == rest
  {
    var s := prefix + rest;
    assert OccursAt(s, prefix, 0);
    assert IndexOf(s, prefix) == Some(0);
    assert s[|prefix|..] == rest;
  }

  /** Lower-casing commutes with taking a factor. */
  lemma ToLowerSlice(s: string, a: nat, b: nat)
    requires a <= b <= |s|
    ensures ToLower(s[a..b]) == ToLower(s)[a..b]
  {
  }

  /** Lower-casing never creates or removes whitespace. */
  lemma LowerCharKeepsSpace(c: char)
    ensures IsSpace(LowerChar(c)) == IsSpace(c)
  {
  }

  lemma {:induction false} SkipSpacesToLower(s: string, i: nat)
    requires i <= |s|
    decreases |s| - i
    ensures SkipSpaces(ToLower(s), i) == SkipSpaces(s, i)
  {
    if i < |s| {
      LowerCharKeepsSpace(s[i]);
      if IsSpace(s[i]) {
        SkipSpacesToLower(s, i + 1);
      }
    }
  }

  lemma {:induction false} BackSpacesToLower(s: string, lo: nat, j: nat)
    requires lo <= j <= |s|
    ensures BackSpaces(ToLower(s), lo, j) == BackSpaces(s, lo, j)
  {
    if lo < j {
      LowerCharKeepsSpace(s[j - 1]);
      if IsSpace(s[j - 1]) {
        BackSpacesToLower(s, lo, j - 1);
      }
    }
  }

  /** The trimmed lowercased text equals the lowercased trimmed text. */
  lemma TrimToLower(s: string)
    ensures Trim(ToLower(s)) == ToLower(Trim(s))
  {
    var a := SkipSpaces(s, 0);
    SkipSpacesToLower(s, 0);
    BackSpacesToLower(s, a, |s|);
    var b := BackSpaces(s, a, |s|);
    ToLowerSlice(s, a, b);
  }
}
