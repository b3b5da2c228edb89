/**
 * The few Python string built-ins the analyzer relies on, over `string`
 * (a sequence of Unicode code points, as a Python `str` is).
 */
module Text {

  import opened Wrappers

  /** `c.isspace()` in Python: the characters `str.strip()` removes by default. */
  predicate IsSpace(c: char) {
    ('\t' <= c <= '\r') || ('\U{1c}' <= c <= '\U{1f}') || c == ' ' ||
    c == '\U{85}' || c == '\U{a0}' || c == '\U{1680}' ||
    ('\U{2000}' <= c <= '\U{200a}') || c == '\U{2028}' || c == '\U{2029}' ||
    c == '\U{202f}' || c == '\U{205f}' || c == '\U{3000}'
  }

  /** Number of whitespace characters at the start of `s`. */
  function LeadingSpaces(s: string): (n: nat)
    ensures n <= |s|
    ensures forall k :: 0 <= k < n ==> IsSpace(s[k])
    ensures n < |s| ==> !IsSpace(s[n])
  {
    if s == [] || !IsSpace(s[0]) then 0 else 1 + LeadingSpaces(s[1..])
  }

  /** Number of whitespace characters at the end of `s`. */
  function TrailingSpaces(s: string): (n: nat)
    ensures n <= |s|
    ensures forall k :: |s| - n <= k < |s| ==> IsSpace(s[k])
    ensures n < |s| ==> !IsSpace(s[|s| - n - 1])
  {
    if s == [] || !IsSpace(s[|s| - 1]) then 0 else 1 + TrailingSpaces(s[..|s| - 1])
  }

  /**
   * `s.strip()`: the infix of `s` that starts after its leading whitespace,
   * with no whitespace at either end; everything cut off is whitespace.
   */
  function Strip(s: string): (r: string)
    ensures LeadingSpaces(s) + |r| <= |s|
    ensures r == s[LeadingSpaces(s)..LeadingSpaces(s) + |r|]
    ensures forall k :: 0 <= k < LeadingSpaces(s) ==> IsSpace(s[k])
    ensures forall k :: LeadingSpaces(s) + |r| <= k < |s| ==> IsSpace(s[k])
    ensures r != [] ==> !IsSpace(r[0]) && !IsSpace(r[|r| - 1])
  {
    var rest := s[LeadingSpaces(s)..];
    rest[..|rest| - TrailingSpaces(rest)]
  }

  /** `sub` occurs in `s` starting at position `p`. */
  predicate OccursAt(s: string, sub: string, p: nat) {
    p + |sub| <= |s| && s[p..p + |sub|] == sub
  }

  /** Python's `sub in s` for strings. */
  predicate Contains(s: string, sub: string) {
    exists p :: 0 <= p <= |s| && OccursAt(s, sub, p)
  }

  /** An occurrence in the stripped string is an occurrence in the original. */
  lemma OccurrenceFromStripped(s: string, sub: string, p: nat)
    requires OccursAt(Strip(s), sub, p)
    ensures OccursAt(s, sub, LeadingSpaces(s) + p)
  {
    var r, lead := Strip(s), LeadingSpaces(s);
    assert s[lead + p..lead + p + |sub|] == r[p..p + |sub|];
  }

  /** An occurrence of a non-empty, whitespace-free string lies inside the stripped part. */
  lemma OccurrenceInStripped(s: string, sub: string, p: nat)
    requires sub != []
    requires forall k :: 0 <= k < |sub| ==> !IsSpace(sub[k])
    requires OccursAt(s, sub, p)
    ensures LeadingSpaces(s) <= p
    ensures OccursAt(Strip(s), sub, p - LeadingSpaces(s))
  {
    var r, lead := Strip(s), LeadingSpaces(s);
    var last := p + |sub| - 1;
    assert s[p] == s[p..p + |sub|][0] == sub[0];
    assert s[last] == s[p..p + |sub|][|sub| - 1] == sub[|sub| - 1];
    assert lead <= p;
    assert last < lead + |r|;
    forall k | 0 <= k < |sub|
      ensures r[p - lead + k] == sub[k]
    {
      assert r[p - lead + k] == s[p + k] == s[p..p + |sub|][k];
    }
    assert r[p - lead..p - lead + |sub|] == sub;
  }

  /**
   * Stripping never changes whether a non-empty, whitespace-free string occurs:
   * no occurrence can overlap the whitespace that is cut off.
   */
  lemma StripKeepsOccurrences(s: string, sub: string)
    requires sub != []
    requires forall k :: 0 <= k < |sub| ==> !IsSpace(sub[k])
    ensures Contains(Strip(s), sub) <==> Contains(s, sub)
  {
    if Contains(Strip(s), sub) {
      var p :| 0 <= p <= |Strip(s)| && OccursAt(Strip(s), sub, p);
      OccurrenceFromStripped(s, sub, p);
    }
    if Contains(s, sub) {
      var p :| 0 <= p <= |s| && OccursAt(s, sub, p);
      OccurrenceInStripped(s, sub, p);
    }
  }

  /** `s.count(c)` for a single character. */
  function Count(s: string, c: char): (n: nat)
    ensures n <= |s|
    ensures n > 0 <==> c in s
  {
    if s == [] then 0 else (if s[0] == c then 1 else 0) + Count(s[1..], c)
  }

  /** Counting is additive over concatenation. */
  lemma {:induction false} CountAppend(a: string, b: string, c: char)
    ensures Count(a + b, c) == Count(a, c) + Count(b, c)
  {
    if a == [] {
      assert a + b == b;
    } else {
      assert (a + b)[1..] == a[1..] + b;
      CountAppend(a[1..], b, c);
    }
  }

  /** `s.find(c)`: the first position of `c` in `s`, if any. */
  function IndexOf(s: string, c: char): (r: Option<nat>)
    ensures r.Some? ==> r.value < |s| && s[r.value] == c && c !in s[..r.value]
    ensures r.None? ==> c !in s
  {
    if s == [] then None
    else if s[0] == c then Some(0)
    else match IndexOf(s[1..], c)
      case Some(k) => assert s[..k + 1] == [s[0]] + s[1..][..k]; Some(k + 1)
      case None => None
  }

  /** A character occurs in a concatenation exactly when it occurs in one of the parts. */
  lemma InConcat(a: string, b: string, c: char)
    ensures c in a + b <==> c in a || c in b
  {
    if c in a + b {
      var i :| 0 <= i < |a + b| && (a + b)[i] == c;
      if i >= |a| {
        assert b[i - |a|] == c;
      }
    }
    if c in b {
      var i :| 0 <= i < |b| && b[i] == c;
      assert (a + b)[|a| + i] == c;
    }
  }

  /** The first `c` in `a + [c] + b` is the one after `a` when `a` holds no `c`. */
  lemma {:induction false} IndexOfAfterFree(a: string, c: char, b: string)
    requires c !in a
    ensures IndexOf(a + [c] + b, c) == Some(|a|)
  {
    if a != [] {
      assert (a + [c] + b)[1..] == a[1..] + [c] + b;
      IndexOfAfterFree(a[1..], c, b);
    }
  }

  /** The middle and the end of a three-part concatenation, found by length. */
  lemma PartsOfConcat(a: string, b: string, c: string)
    ensures |a + b + c| == |a| + |b| + |c|
    ensures (a + b + c)[|a|..|a| + |b|] == b
    ensures (a + b + c)[|a| + |b|..] == c
  {
  }

  /** `"".join(parts)`. */
  function Join(parts: seq<string>): string {
    if parts == [] then "" else parts[0] + Join(parts[1..])
  }

  /** Appending a part to the list appends its text to the joined string. */
  lemma {:induction false} JoinAppend(parts: seq<string>, x: string)
    ensures Join(parts + [x]) == Join(parts) + x
  {
    if parts != [] {
      assert (parts + [x])[1..] == parts[1..] + [x];
      JoinAppend(parts[1..], x);
    }
  }
}
