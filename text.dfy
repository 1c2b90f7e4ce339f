/** String helpers: ASCII case folding (Python 2 `re.I` on byte strings),
    the tail a `.*$` regular expression accepts, and the `a + ":" + b` keys
    used for both the scope key and the scoped store key. */
module Text {

  function LowerChar(c: char): (r: char)
  {
    if 'A' <= c <= 'Z' then (c as int + 32) as char else c
  }

  /** ASCII lower-casing, character by character. */
  function Lower(s: string): (r: string)
    ensures |r| == |s|
    ensures forall i :: 0 <= i < |s| ==> r[i] == LowerChar(s[i])
  {
    seq(|s|, i requires 0 <= i < |s| => LowerChar(s[i]))
  }

  lemma LowerIdempotent(s: string)
    ensures Lower(Lower(s)) == Lower(s)
  {
  }

  /** The text before an optional single trailing line break. */
  function LinePart(t: string): (r: string)
    ensures |r| <= |t| && r == t[..|r|]
    ensures |t| - 1 <= |r|
  {
    if |t| > 0 && t[|t| - 1] == '\n' then t[..|t| - 1] else t
  }

  /** A suffix that `.*$` matches in Python's `re` without MULTILINE: any
      characters but a line break, then either the end or one final line break. */
  predicate RestOfLine(t: string)
  {
    '\n' !in LinePart(t)
  }

  /** Replaces every occurrence of `a` by `b` (Python `str.replace` on one character). */
  function ReplaceChar(s: string, a: char, b: char): (r: string)
    ensures |r| == |s|
    ensures forall i :: 0 <= i < |s| ==> r[i] == (if s[i] == a then b else s[i])
  {
    seq(|s|, i requires 0 <= i < |s| => if s[i] == a then b else s[i])
  }

  /** `a + ":" + b`, the shape of both the scope key and the scoped store key. */
  function Colon(a: string, b: string): (r: string)
    ensures |r| == |a| + 1 + |b|
    ensures r[..|a|] == a && r[|a|] == ':' && r[|a| + 1..] == b
  {
    a + ":" + b
  }

  /** When the first part holds no colon, both parts can be read back from
      the joined key: distinct pairs never share a key. */
  lemma ColonInjective(a1: string, b1: string, a2: string, b2: string)
    requires ':' !in a1 && ':' !in a2
    requires Colon(a1, b1) == Colon(a2, b2)
    ensures a1 == a2 && b1 == b2
  {
    var k := Colon(a1, b1);
    assert forall i :: 0 <= i < |a1| ==> k[i] == a1[i] != ':';
    assert forall i :: 0 <= i < |a2| ==> k[i] == a2[i] != ':';
    assert |a1| == |a2|;
    assert a1 == k[..|a1|] == a2;
    assert b1 == k[|a1| + 1..] == b2;
  }
}
