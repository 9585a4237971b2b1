/** String operations the query router relies on: lower-casing a query and
    testing whether a keyword occurs in it as a substring (the `in` operator
    on strings). Strings are sequences of characters. */
module Text {

  predicate IsUpper(c: char) {
    'A' <= c <= 'Z'
  }

  /** Lower-cases one character: ASCII capitals map to their small letter,
      every other character is left as it is. */
  function LowerChar(c: char): (r: char)
    ensures !IsUpper(r)
    ensures !IsUpper(c) ==> r == c
  {
    if IsUpper(c) then (c as int + 32) as char else c
  }

  /** ASCII upper-casing of one character: 'a' to 'z' map to their capital,
      every other character is left as it is; the opposite of LowerChar. */
  function UpperChar(c: char): (r: char)
    ensures LowerChar(r) == LowerChar(c)
  {
    if 'a' <= c <= 'z' then (c as int - 32) as char else c
  }

  /** The lower-cased query: same length, each character lower-cased. */
  function Lower(s: string): (r: string)
    ensures |r| == |s|
    ensures forall i :: 0 <= i < |s| ==> r[i] == LowerChar(s[i])
  {
    if s == [] then [] else [LowerChar(s[0])] + Lower(s[1..])
  }

  /** The ASCII upper-cased string, used to state that routing ignores the
      case of ASCII letters. */
  function Upper(s: string): (r: string)
    ensures |r| == |s|
    ensures forall i :: 0 <= i < |s| ==> LowerChar(r[i]) == LowerChar(s[i])
  {
    if s == [] then [] else [UpperChar(s[0])] + Upper(s[1..])
  }

  /** `p` occurs in `s` starting at offset `i`. */
  predicate OccursAt(s: string, p: string, i: nat) {
    i + |p| <= |s| && s[i..i + |p|] == p
  }

  /** Specification of substring search: `p` occurs in `s` at some offset.
      The empty pattern occurs in every string. */
  ghost predicate Occurs(s: string, p: string) {
    exists i: nat :: OccursAt(s, p, i)
  }

  /** Substring search by trying each offset from the left. */
  function Contains(s: string, p: string): (r: bool)
    ensures r <==> Occurs(s, p)
    decreases |s|
  {
    if |s| < |p| then false
    else if s[..|p|] == p then
      assert OccursAt(s, p, 0);
      true
    else
      var rest := Contains(s[1..], p);
      assert rest ==> Occurs(s, p) by {
        if rest {
          var j: nat :| OccursAt(s[1..], p, j);
          assert s[j + 1..j + 1 + |p|] == s[1..][j..j + |p|];
          assert OccursAt(s, p, j + 1);
        }
      }
      assert Occurs(s, p) ==> rest by {
        if Occurs(s, p) {
          var j: nat :| OccursAt(s, p, j);
          assert j != 0;
          assert s[1..][j - 1..j - 1 + |p|] == s[j..j + |p|];
          assert OccursAt(s[1..], p, j - 1);
        }
      }
      rest
  }

  /** Lower-casing twice is the same as lower-casing once. */
  lemma LowerIdempotent(s: string)
    ensures Lower(Lower(s)) == Lower(s)
  {
  }

  /** A string and its ASCII upper-cased form have the same lower-cased form. */
  lemma LowerUpper(s: string)
    ensures Lower(Upper(s)) == Lower(s)
  {
  }

  /** Lower-casing distributes over concatenation. */
  lemma LowerAppend(s: string, t: string)
    ensures Lower(s + t) == Lower(s) + Lower(t)
  {
  }

  /** An occurrence survives adding text on either side. */
  lemma OccursInAppend(s: string, t: string, u: string, p: string)
    requires Occurs(t, p)
    ensures Occurs(s + t + u, p)
  {
    var j: nat :| OccursAt(t, p, j);
    var k := |s| + j;
    assert (s + t + u)[k..k + |p|] == t[j..j + |p|];
    assert OccursAt(s + t + u, p, k);
  }

  /** Every string occurs in itself. */
  lemma OccursSelf(p: string)
    ensures Occurs(p, p)
  {
    assert OccursAt(p, p, 0);
  }

  /** A pattern does not occur when, at every offset where it would fit, one
      fixed character of it is missing. */
  lemma NotOccursByChar(s: string, p: string, k: nat)
    requires k < |p|
    requires forall j :: k <= j <= |s| - |p| + k ==> s[j] != p[k]
    ensures !Occurs(s, p)
  {
    forall i: nat | i + |p| <= |s|
      ensures !OccursAt(s, p, i)
    {
      assert s[i..i + |p|][k] == s[i + k] != p[k];
    }
  }
}
