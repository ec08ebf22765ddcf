/** ASCII case folding and substring search: the two string operations the
    chatbot uses to match keywords (`str.lower()` and the `in` operator on
    strings). Only ASCII letters are folded; every other character is left as
    it is. */
module Text {

  /** Lower-case one character: `A`..`Z` become `a`..`z`. */
  function LowerChar(c: char): (r: char)
    ensures 'A' <= c <= 'Z' ==> 'a' <= r <= 'z' && r as int - c as int == 32
    ensures !('A' <= c <= 'Z') ==> r == c
  {
    if 'A' <= c <= 'Z' then (c as int + 32) as char else c
  }

  /** Lower-case a whole string, character by character. */
  function Lower(s: string): (r: string)
    ensures IsLower(r) && SameIgnoringCase(s, r)
  {
    seq(|s|, i requires 0 <= i < |s| => LowerChar(s[i]))
  }

  /** No upper-case ASCII letter anywhere in `s`. */
  predicate IsLower(s: string) {
    forall i :: 0 <= i < |s| ==> !('A' <= s[i] <= 'Z')
  }

  /** Two strings that differ only in the case of ASCII letters. */
  predicate SameIgnoringCase(a: string, b: string) {
    |a| == |b| && forall i :: 0 <= i < |a| ==> LowerChar(a[i]) == LowerChar(b[i])
  }

  /** Folding a string twice is folding it once. */
  lemma LowerIdempotent(s: string)
    ensures Lower(Lower(s)) == Lower(s)
  {
    assert forall i :: 0 <= i < |s| ==> LowerChar(LowerChar(s[i])) == LowerChar(s[i]);
  }

  /** Folding leaves a string without upper-case letters as it is. */
  lemma LowerOfLower(s: string)
    requires IsLower(s)
    ensures Lower(s) == s
  {
  }

  /** A character that is neither `c` nor its upper-case form in `s` leaves
      `c` out of the folded string. */
  lemma NotInLower(s: string, c: char)
    requires 'a' <= c <= 'z'
    requires c !in s && (c as int - 32) as char !in s
    ensures c !in Lower(s)
  {
    forall i | 0 <= i < |s| ensures Lower(s)[i] != c {
      assert s[i] != c && s[i] != (c as int - 32) as char;
    }
  }

  /** Strings that agree up to case fold to the same string. */
  lemma SameIgnoringCaseLower(a: string, b: string)
    requires SameIgnoringCase(a, b)
    ensures Lower(a) == Lower(b)
  {
  }

  /** `w` occurs in `s` starting at position `i`. */
  predicate OccursAt(s: string, w: string, i: nat) {
    i + |w| <= |s| && s[i..i + |w|] == w
  }

  /** Dropping the first character of `s` shifts every occurrence one
      place to the left. */
  lemma {:induction false} OccursShift(s: string, w: string)
    requires |s| > 0
    ensures (exists i: nat :: OccursAt(s[1..], w, i)) <==> (exists i: nat :: i >= 1 && OccursAt(s, w, i))
  {
    if i: nat :| OccursAt(s[1..], w, i) {
      assert s[i + 1..i + 1 + |w|] == s[1..][i..i + |w|];
      assert OccursAt(s, w, i + 1);
    }
    if i: nat :| i >= 1 && OccursAt(s, w, i) {
      assert s[1..][i - 1..i - 1 + |w|] == s[i..i + |w|];
      assert OccursAt(s[1..], w, i - 1);
    }
  }

  /** Substring containment, `w in s`, found by scanning `s` from the left;
      it holds exactly when `w` occurs at some position of `s`. */
  function Contains(s: string, w: string): (r: bool)
    ensures r <==> exists i: nat :: OccursAt(s, w, i)
    decreases |s|
  {
    if |w| > |s| then false
    else if s[..|w|] == w then
      assert OccursAt(s, w, 0);
      true
    else
      OccursShift(s, w);
      Contains(s[1..], w)
  }

  /** A word at the front of a string occurs at position 0. */
  lemma OccursAtFront(w: string, y: string)
    ensures OccursAt(w + y, w, 0)
  {
    assert (w + y)[..|w|] == w;
  }

  /** Putting a string in front moves an occurrence right by its length. */
  lemma OccursAfter(x: string, y: string, w: string, i: nat)
    requires OccursAt(y, w, i)
    ensures OccursAt(x + y, w, |x| + i)
  {
    assert (x + y)[|x| + i..|x| + i + |w|] == y[i..i + |w|];
  }

  /** Putting a string behind leaves an occurrence where it is. */
  lemma OccursBefore(x: string, y: string, w: string, i: nat)
    requires OccursAt(x, w, i)
    ensures OccursAt(x + y, w, i)
  {
    assert (x + y)[i..i + |w|] == x[i..i + |w|];
  }

  /** An occurrence of `x + y` holds an occurrence of `x` where it starts and
      one of `y` right after `x`. */
  lemma OccursSplit(s: string, x: string, y: string, i: nat)
    requires OccursAt(s, x + y, i)
    ensures OccursAt(s, x, i) && OccursAt(s, y, i + |x|)
  {
    assert s[i..i + |x|] == (x + y)[..|x|];
    assert s[i + |x|..i + |x| + |y|] == (x + y)[|x|..];
  }

  /** `line` is a whole line of `s` starting at position `i`: it occurs
      there, after the start of `s` or a line break, and before a line break
      or the end of `s`. */
  predicate LineAt(s: string, line: string, i: nat) {
    OccursAt(s, line, i)
    && (i == 0 || OccursAt(s, "\n", i - 1))
    && (i + |line| == |s| || OccursAt(s, "\n", i + |line|))
  }

  /** The text before the first line break is the first line. */
  lemma FirstLine(x: string, y: string)
    ensures LineAt(x + ("\n" + y), x, 0)
  {
    OccursAtFront(x, "\n" + y);
    OccursAtFront("\n", y);
    OccursAfter(x, "\n" + y, "\n", 0);
  }

  /** A line of `y` stays a line, shifted right, when `x` is put in front,
      as long as `x` ends with a line break if the line starts `y`. */
  lemma LineAfter(x: string, y: string, line: string, i: nat)
    requires LineAt(y, line, i)
    requires i > 0 || (|x| > 0 && OccursAt(x, "\n", |x| - 1))
    ensures LineAt(x + y, line, |x| + i)
  {
    OccursAfter(x, y, line, i);
    if i > 0 {
      OccursAfter(x, y, "\n", i - 1);
    } else {
      OccursBefore(x, y, "\n", |x| - 1);
    }
    if i + |line| < |y| {
      OccursAfter(x, y, "\n", i + |line|);
    }
  }

  /** A line of `y` is a line of `x`, a line break and `y`. */
  lemma LineAfterLine(x: string, y: string, line: string, i: nat)
    requires LineAt(y, line, i)
    ensures LineAt(x + ("\n" + y), line, |x| + 1 + i)
  {
    LineAfter("\n", y, line, i);
    LineAfter(x, "\n" + y, line, 1 + i);
  }

  /** Lines joined by line breaks, as a multi-line string literal lays them
      out; the last line runs to the end of the text. */
  function JoinLines(lines: seq<string>): (r: string)
    ensures |lines| > 0 ==> |r| == LineStart(lines, |lines| - 1) + |lines[|lines| - 1]|
  {
    if |lines| == 0 then ""
    else if |lines| == 1 then lines[0]
    else lines[0] + ("\n" + JoinLines(lines[1..]))
  }

  /** Where line `k` starts in the joined text: after each earlier line and
      its line break. */
  function LineStart(lines: seq<string>, k: nat): nat
    requires k < |lines|
  {
    if k == 0 then 0 else |lines[0]| + 1 + LineStart(lines[1..], k - 1)
  }

  /** Every line of the list is a whole line of the joined text, at its own
      start position. */
  lemma {:induction false} LineOfJoin(lines: seq<string>, k: nat)
    requires k < |lines|
    ensures LineAt(JoinLines(lines), lines[k], LineStart(lines, k))
    decreases |lines|
  {
    if |lines| == 1 {
      assert JoinLines(lines)[0..|lines[0]|] == lines[0];
    } else if k == 0 {
      FirstLine(lines[0], JoinLines(lines[1..]));
    } else {
      LineOfJoin(lines[1..], k - 1);
      LineAfterLine(lines[0], JoinLines(lines[1..]), lines[k], LineStart(lines[1..], k - 1));
    }
  }

  /** An occurrence at a known position is found by the scan. */
  lemma ContainsAt(s: string, w: string, i: nat)
    requires OccursAt(s, w, i)
    ensures Contains(s, w)
  {
  }

  /** A word with a character that the text lacks does not occur in it. */
  lemma MissingCharNotContained(s: string, w: string, k: nat)
    requires k < |w| && w[k] !in s
    ensures !Contains(s, w)
  {
  }

  /** An occurrence of `w` in `s` is, once both are folded, an occurrence of
      the folded word in the folded text. */
  lemma OccursFolded(s: string, w: string, i: nat)
    requires OccursAt(s, w, i)
    ensures OccursAt(Lower(s), Lower(w), i)
  {
    assert forall k :: 0 <= k < |w| ==> Lower(s)[i + k] == LowerChar(s[i + k]) == LowerChar(w[k]);
  }

  /** A lower-case word that occurs in `s` is found in the folded `s`. */
  lemma ContainsFolded(s: string, w: string, i: nat)
    requires OccursAt(s, w, i) && IsLower(w)
    ensures Contains(Lower(s), w)
  {
    OccursFolded(s, w, i);
    LowerOfLower(w);
    ContainsAt(Lower(s), w, i);
  }

  /** Python's `any(word in s for word in words)`, tried word by word in
      list order; it holds exactly when some word of the list occurs in `s`. */
  function ContainsAny(s: string, words: seq<string>): (r: bool)
    ensures r <==> exists k :: 0 <= k < |words| && Contains(s, words[k])
  {
    if words == [] then false
    else
      assert forall k :: 1 <= k < |words| ==> words[1..][k - 1] == words[k];
      Contains(s, words[0]) || ContainsAny(s, words[1..])
  }

  /** A match against a list carries over to any list holding the word that
      matched. */
  lemma ContainsAnyWitness(s: string, words: seq<string>, w: string)
    requires w in words && Contains(s, w)
    ensures ContainsAny(s, words)
  {
    var k :| 0 <= k < |words| && words[k] == w;
  }
}
