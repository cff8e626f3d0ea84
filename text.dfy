/**
 * The two Kotlin string predicates the app relies on, restricted to ASCII:
 * `String.isBlank()` (every character is whitespace) and
 * `String.contains(other, ignoreCase = true)` (some window of the string equals `other`
 * character by character, up to letter case).
 */
module Text {

  /** `Char.isWhitespace()` on the ASCII range: tab, line feed, vertical tab, form feed,
      carriage return, the four information separators U+001C..U+001F, and space. */
  predicate IsWhitespace(c: char)
  {
    c == ' ' || ('\t' <= c <= '\r') || ('\U{1C}' <= c <= '\U{1F}')
  }

  /** `s.isBlank()`: empty, or made only of whitespace. */
  predicate IsBlank(s: string): (r: bool)
    ensures s == [] ==> r
    ensures r <==> forall c :: c in s ==> c == ' ' || '\t' <= c <= '\r' || '\U{1C}' <= c <= '\U{1F}'
  {
    assert forall i :: 0 <= i < |s| ==> s[i] in s;
    forall i :: 0 <= i < |s| ==> IsWhitespace(s[i])
  }

  /** `s.isNotBlank()` */
  predicate IsNotBlank(s: string)
  {
    !IsBlank(s)
  }

  /** ASCII case folding: 'A'..'Z' map to 'a'..'z', every other character to itself. */
  function LowerAscii(c: char): (r: char)
    ensures 'A' <= c <= 'Z' ==> 'a' <= r <= 'z' && r as int - c as int == 32
    ensures !('A' <= c <= 'Z') ==> r == c
  {
    if 'A' <= c <= 'Z' then (c as int + 32) as char else c
  }

  /** `Char.equals(other, ignoreCase = true)` on ASCII letters. */
  predicate CharEqualsIgnoreCase(a: char, b: char)
  {
    LowerAscii(a) == LowerAscii(b)
  }

  /** The window of `s` starting at `i` equals `q` up to letter case. */
  ghost predicate OccursAt(s: string, q: string, i: int)
  {
    0 <= i && i + |q| <= |s| &&
    forall k :: 0 <= k < |q| ==> CharEqualsIgnoreCase(s[i + k], q[k])
  }

  predicate StartsWithIgnoreCase(s: string, q: string)
    requires |q| <= |s|
  {
    forall k :: 0 <= k < |q| ==> CharEqualsIgnoreCase(s[k], q[k])
  }

  /** `s.contains(q, ignoreCase = true)`: some window of `s` matches `q`; the empty query
      occurs at position 0 of every string. */
  function ContainsIgnoreCase(s: string, q: string): (r: bool)
    ensures r <==> exists i :: OccursAt(s, q, i)
    decreases |s|
  {
    if |q| > |s| then
      assert forall i :: !OccursAt(s, q, i);
      false
    else
      OccursAtHeadOrTail(s, q);
      StartsWithIgnoreCase(s, q) || ContainsIgnoreCase(s[1..], q)
  }

  /** A window of a non-empty string is at its head or is a window of its tail. */
  lemma OccursAtHeadOrTail(s: string, q: string)
    requires |q| <= |s|
    ensures OccursAt(s, q, 0) == StartsWithIgnoreCase(s, q)
    ensures (exists i :: OccursAt(s, q, i)) <==>
      StartsWithIgnoreCase(s, q) || (s != [] && exists i :: OccursAt(s[1..], q, i))
  {
    if s != [] {
      forall i | OccursAt(s[1..], q, i) ensures OccursAt(s, q, i + 1) { }
      forall i | OccursAt(s, q, i) && i > 0 ensures OccursAt(s[1..], q, i - 1) { }
    }
  }

  /** The empty query is found in every string. */
  lemma EmptyQueryOccurs(s: string)
    ensures ContainsIgnoreCase(s, "")
  {
  }

  /** Only the case-folded query matters: two queries that agree up to letter case are found
      in exactly the same strings. */
  lemma QueryCaseIrrelevant(s: string, q: string, q': string)
    requires |q| == |q'|
    requires forall k :: 0 <= k < |q| ==> CharEqualsIgnoreCase(q[k], q'[k])
    ensures ContainsIgnoreCase(s, q) == ContainsIgnoreCase(s, q')
  {
  }
}
