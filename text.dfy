/** String primitives the router takes from Python: `str.lower()` (restricted
    to ASCII letters), the substring test `k in s`, the blank test
    `not s.strip()`, and `sep.join(parts)`. */
module Text {

  /** Lower-cases one character: ASCII capitals move down by 32, every other
      character is left alone. */
  function LowerChar(c: char): char {
    if 'A' <= c <= 'Z' then (c as int + 32) as char else c
  }

  /** `s.lower()` for ASCII text: same length, each character lower-cased. */
  function Lower(s: string): (r: string)
    ensures |r| == |s|
    ensures forall i :: 0 <= i < |s| ==> r[i] == LowerChar(s[i])
    ensures forall i :: 0 <= i < |s| ==> !('A' <= r[i] <= 'Z')
  {
    seq(|s|, i requires 0 <= i < |s| => LowerChar(s[i]))
  }

  /** `s.startswith(p)`. */
  predicate StartsWith(s: string, p: string) {
    |p| <= |s| && s[..|p|] == p
  }

  /** `s.endswith(p)`. */
  predicate EndsWith(s: string, p: string) {
    |p| <= |s| && s[|s| - |p|..] == p
  }

  /** `k` occurs in `s` starting at index `i`. */
  predicate OccursAt(s: string, k: string, i: int) {
    0 <= i && i + |k| <= |s| && s[i..i + |k|] == k
  }

  /** Python's `k in s` on strings, as a left-to-right scan: `k` is a prefix
      of `s` or occurs in the rest of `s`. The empty string occurs in every
      string. */
  predicate Contains(s: string, k: string)
    decreases |s|
  {
    StartsWith(s, k) || (|s| > 0 && Contains(s[1..], k))
  }

  /** The scan finds `k` exactly when `k` occurs at some index of `s`. */
  lemma {:induction false} ContainsIffOccurs(s: string, k: string)
    ensures Contains(s, k) <==> exists i :: OccursAt(s, k, i)
    decreases |s|
  {
    if StartsWith(s, k) {
      assert OccursAt(s, k, 0);
    } else if |s| > 0 {
      ContainsIffOccurs(s[1..], k);
      if Contains(s[1..], k) {
        var i :| OccursAt(s[1..], k, i);
        assert s[i + 1..i + 1 + |k|] == s[1..][i..i + |k|];
        assert OccursAt(s, k, i + 1);
      } else {
        var rest := s[1..];
        forall i | 1 <= i ensures !OccursAt(s, k, i) {
          assert OccursAt(s, k, i) ==> OccursAt(rest, k, i - 1);
        }
      }
    }
  }

  /** An occurrence at a known index is found by the scan. */
  lemma OccursContains(s: string, k: string, i: int)
    requires OccursAt(s, k, i)
    ensures Contains(s, k)
  {
    ContainsIffOccurs(s, k);
  }

  /** A string occurs in any concatenation that has it as a part. */
  lemma ContainsPart(a: string, k: string, b: string)
    ensures Contains(a + k + b, k)
  {
    assert (a + k + b)[|a|..|a| + |k|] == k;
    OccursContains(a + k + b, k, |a|);
  }

  /** An occurrence inside a part is an occurrence in the whole. */
  lemma ContainsWithin(x: string, mid: string, y: string, k: string)
    requires Contains(mid, k)
    ensures Contains(x + mid + y, k)
  {
    ContainsIffOccurs(mid, k);
    var i :| OccursAt(mid, k, i);
    assert (x + mid + y)[|x| + i..|x| + i + |k|] == mid[i..i + |k|];
    OccursContains(x + mid + y, k, |x| + i);
  }

  /** Every string occurs in itself. */
  lemma ContainsSelf(s: string)
    ensures Contains(s, s)
  {
  }

  /** An occurrence in the tail of a concatenation is an occurrence in the
      whole. */
  lemma ContainsInTail(x: string, mid: string, k: string)
    requires Contains(mid, k)
    ensures Contains(x + mid, k)
  {
    ContainsWithin(x, mid, "", k);
    assert x + mid + "" == x + mid;
  }

  /** Each of three leading parts occurs in a concatenation. */
  lemma LeadingParts(a: string, b: string, c: string, rest: string)
    ensures Contains(a + b + c + rest, a)
    ensures Contains(a + b + c + rest, b)
    ensures Contains(a + b + c + rest, c)
  {
    ContainsSelf(a);
    ContainsSelf(b);
    ContainsSelf(c);
    ContainsWithin("", a, b + c + rest, a);
    assert "" + a + (b + c + rest) == a + b + c + rest;
    ContainsWithin(a, b, c + rest, b);
    assert a + b + (c + rest) == a + b + c + rest;
    ContainsWithin(a + b, c, rest, c);
  }

  /** Python's `str.isspace()` on one character, restricted to ASCII: space,
      tab, line feed, vertical tab, form feed, carriage return and the four
      separators 0x1C-0x1F. */
  predicate IsSpace(c: char) {
    c == ' ' || c == '\t' || c == '\n' || c == '\r' || c == '\U{B}' || c == '\U{C}'
    || ('\U{1C}' <= c <= '\U{1F}')
  }

  /** `not s.strip()`: the string is empty or all whitespace. */
  predicate Blank(s: string) {
    forall i :: 0 <= i < |s| ==> IsSpace(s[i])
  }

  /** `sep.join(parts)`. */
  function Join(parts: seq<string>, sep: string): string
    decreases |parts|
  {
    if |parts| == 0 then ""
    else if |parts| == 1 then parts[0]
    else parts[0] + sep + Join(parts[1..], sep)
  }
}
