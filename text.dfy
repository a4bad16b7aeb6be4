/**
 * The string operations both bots rely on: JavaScript's `String.prototype.trim`,
 * `toLowerCase` (restricted to ASCII letters) and `includes` (substring containment).
 * Strings are sequences of characters.
 */
module Text {

  /** The characters `trim` removes: ECMAScript WhiteSpace and LineTerminator. */
  predicate IsJsWhitespace(c: char) {
    c == '\t' || c == '\n' || c == '\U{000B}' || c == '\U{000C}' || c == '\r' || c == ' '
    || c == '\U{00A0}' || c == '\U{1680}' || ('\U{2000}' <= c <= '\U{200A}')
    || c == '\U{2028}' || c == '\U{2029}' || c == '\U{202F}' || c == '\U{205F}'
    || c == '\U{3000}' || c == '\U{FEFF}'
  }

  /** Scans right from `i` past whitespace: the index of the first character that is
    * not whitespace, or `|s|` when there is none. */
  function SkipLeading(s: string, i: nat): (j: nat)
    requires i <= |s|
    ensures i <= j <= |s|
    ensures forall k :: i <= k < j ==> IsJsWhitespace(s[k])
    ensures j == |s| || !IsJsWhitespace(s[j])
    decreases |s| - i
  {
    if i < |s| && IsJsWhitespace(s[i]) then SkipLeading(s, i + 1) else i
  }

  /** Scans left from `j`, never below `lo`, past whitespace: the end of the last
    * character that is not whitespace, or `lo` when there is none. */
  function SkipTrailing(s: string, lo: nat, j: nat): (e: nat)
    requires lo <= j <= |s|
    ensures lo <= e <= j
    ensures forall k :: e <= k < j ==> IsJsWhitespace(s[k])
    ensures e == lo || !IsJsWhitespace(s[e - 1])
    decreases j
  {
    if lo < j && IsJsWhitespace(s[j - 1]) then SkipTrailing(s, lo, j - 1) else j
  }

  /** `s.trim()`: a contiguous piece of `s`, everything cut off is whitespace,
    * and the piece neither starts nor ends with whitespace. */
  function Trim(s: string): (r: string)
    ensures exists i :: OccursAt(r, s, i) && TrimmedAround(s, i, i + |r|)
    ensures r == [] || (!IsJsWhitespace(r[0]) && !IsJsWhitespace(r[|r| - 1]))
  {
    var start := SkipLeading(s, 0);
    var end := SkipTrailing(s, start, |s|);
    assert OccursAt(s[start..end], s, start);
    s[start..end]
  }

  /** Everything of `s` before index `i` and from index `j` on is whitespace. */
  ghost predicate TrimmedAround(s: string, i: int, j: int)
    requires 0 <= i <= j <= |s|
  {
    (forall k :: 0 <= k < i ==> IsJsWhitespace(s[k]))
    && (forall k :: j <= k < |s| ==> IsJsWhitespace(s[k]))
  }

  /** Trimming twice is trimming once. */
  lemma TrimIdempotent(s: string)
    ensures Trim(Trim(s)) == Trim(s)
  {
  }

  /** A whitespace-only string trims to the empty string. */
  lemma TrimBlank(s: string)
    requires forall k :: 0 <= k < |s| ==> IsJsWhitespace(s[k])
    ensures Trim(s) == []
  {
    var start := SkipLeading(s, 0);
    assert start == |s|;
  }

  function LowerChar(c: char): (d: char)
    ensures 'A' <= c <= 'Z' ==> 'a' <= d <= 'z' && d as int == c as int + 32
    ensures !('A' <= c <= 'Z') ==> d == c
  {
    if 'A' <= c <= 'Z' then (c as int + 32) as char else c
  }

  /** `s.toLowerCase()` on the ASCII letters; every other character is kept. */
  function Lower(s: string): (r: string)
    ensures |r| == |s|
    ensures forall i :: 0 <= i < |s| ==> r[i] == LowerChar(s[i])
  {
    if s == [] then [] else [LowerChar(s[0])] + Lower(s[1..])
  }

  /** True when `s` is already in lower case (as `Lower` sees it). */
  predicate IsLower(s: string) {
    forall i :: 0 <= i < |s| ==> LowerChar(s[i]) == s[i]
  }

  /** Lower-casing is idempotent. */
  lemma LowerIsLower(s: string)
    ensures IsLower(Lower(s)) && Lower(Lower(s)) == Lower(s)
  {
  }

  predicate StartsWith(s: string, p: string) {
    |p| <= |s| && s[..|p|] == p
  }

  /** `s.includes(kw)`, computed the way a scan from the left does it. */
  predicate Contains(s: string, kw: string)
    decreases |s|
  {
    StartsWith(s, kw) || (|s| > 0 && Contains(s[1..], kw))
  }

  /** Reference meaning of "`kw` is a substring of `s`": it sits at some index. */
  ghost predicate OccursIn(kw: string, s: string) {
    exists i :: OccursAt(kw, s, i)
  }

  /** `kw` sits in `s` starting at index `i`. */
  predicate OccursAt(kw: string, s: string, i: int) {
    0 <= i <= |s| - |kw| && s[i..i + |kw|] == kw
  }

  /** The scan finds `kw` exactly when it occurs somewhere. */
  lemma {:induction false} ContainsIff(s: string, kw: string)
    ensures Contains(s, kw) <==> OccursIn(kw, s)
    decreases |s|
  {
    if StartsWith(s, kw) {
      assert OccursAt(kw, s, 0);
    } else if |s| > 0 {
      ContainsIff(s[1..], kw);
      OccursInTail(s, kw);
    }
  }

  /** Away from index 0, an occurrence in `s` is an occurrence in `s[1..]`, one place earlier. */
  lemma OccursInTail(s: string, kw: string)
    requires |s| > 0 && !StartsWith(s, kw)
    ensures OccursIn(kw, s) <==> OccursIn(kw, s[1..])
  {
    if OccursIn(kw, s[1..]) {
      var i :| OccursAt(kw, s[1..], i);
      assert s[i + 1..i + 1 + |kw|] == s[1..][i..i + |kw|];
      assert OccursAt(kw, s, i + 1);
    }
    if OccursIn(kw, s) {
      var i :| OccursAt(kw, s, i);
      assert s[1..][i - 1..i - 1 + |kw|] == s[i..i + |kw|];
      assert OccursAt(kw, s[1..], i - 1);
    }
  }

  /** Substring containment is transitive: a piece of a substring is a substring. */
  lemma OccursTransitive(inner: string, mid: string, s: string)
    requires OccursIn(inner, mid) && OccursIn(mid, s)
    ensures OccursIn(inner, s)
  {
    var j :| OccursAt(mid, s, j);
    var i :| OccursAt(inner, mid, i);
    assert s[j + i..j + i + |inner|] == inner by {
      forall k | 0 <= k < |inner| ensures s[j + i..j + i + |inner|][k] == inner[k] {
        assert mid[i..i + |inner|][k] == inner[k];
        assert s[j..j + |mid|][i + k] == mid[i + k];
      }
    }
    assert OccursAt(inner, s, j + i);
  }

  /** A keyword longer than the text cannot occur in it. */
  lemma {:induction false} ContainsNeedsRoom(s: string, kw: string)
    requires Contains(s, kw)
    ensures |kw| <= |s|
  {
    ContainsIff(s, kw);
  }

  /** Matching after `toLowerCase` ignores letter case: wherever a text holds a piece
    * `w` in any letter case, its lower-cased form `kw` occurs in the lower-cased text. */
  lemma LowerKeepsOccurrence(w: string, kw: string, s: string)
    requires Lower(w) == kw && OccursIn(w, s)
    ensures OccursIn(kw, Lower(s))
  {
    var i :| OccursAt(w, s, i);
    var l := Lower(s);
    assert l[i..i + |kw|] == kw by {
      forall k | 0 <= k < |kw| ensures l[i..i + |kw|][k] == kw[k] {
        assert s[i..i + |w|][k] == w[k];
      }
    }
    assert OccursAt(kw, l, i);
  }
}
