/**
 * The string primitives the caption handler relies on: `str.lower`, `str.strip`,
 * the `in` substring test, and the character classes `\d` and `\w` of Python's
 * `re` module. All of them are restricted to ASCII: characters outside ASCII are
 * never lowered, never stripped and never word characters.
 */
module AsciiText {

  /** `str.isspace` on ASCII: tab, line feed, vertical tab, form feed, carriage
      return, the four information separators 0x1C-0x1F, and space. */
  predicate IsSpace(c: char)
    ensures IsSpace(c) ==> c <= ' ' && !IsWordChar(c)
  {
    c == ' ' || ('\U{09}' <= c <= '\U{0D}') || ('\U{1C}' <= c <= '\U{1F}')
  }

  predicate AllSpace(s: string) {
    forall i :: 0 <= i < |s| ==> IsSpace(s[i])
  }

  /** `\d` on ASCII. */
  predicate IsDigit(c: char)
    ensures IsDigit(c) ==> 0 <= c as int - '0' as int <= 9
  {
    '0' <= c <= '9'
  }

  /** `\w` on ASCII: letters, digits and the underscore. */
  predicate IsWordChar(c: char)
    ensures IsDigit(c) ==> IsWordChar(c)
    ensures IsWordChar(c) ==> c < '\U{80}'
  {
    IsDigit(c) || ('a' <= c <= 'z') || ('A' <= c <= 'Z') || c == '_'
  }

  predicate IsUpper(c: char) {
    'A' <= c <= 'Z'
  }

  function LowerChar(c: char): (r: char)
    ensures !IsUpper(r)
    ensures IsUpper(c) ==> r as int == c as int + 32
    ensures !IsUpper(c) ==> r == c
  {
    if IsUpper(c) then (c as int + 32) as char else c
  }

  /** `str.lower` on ASCII. */
  function Lower(s: string): (r: string)
    ensures |r| == |s|
    ensures forall i :: 0 <= i < |s| ==> r[i] == LowerChar(s[i])
  {
    if s == [] then [] else [LowerChar(s[0])] + Lower(s[1..])
  }

  /** Lowering twice is lowering once. */
  lemma LowerIdempotent(s: string)
    ensures Lower(Lower(s)) == Lower(s)
  {
    var l := Lower(s);
    assert forall i :: 0 <= i < |l| ==> LowerChar(l[i]) == l[i];
  }

  /** `p` occurs in `s` starting at index `i`. */
  predicate OccursAt(p: string, s: string, i: int) {
    0 <= i && i + |p| <= |s| && s[i..i + |p|] == p
  }

  /** Python's `p in s` on strings. */
  predicate IsSubstring(p: string, s: string)
    ensures p == [] ==> IsSubstring(p, s)
    ensures IsSubstring(p, s) ==> |p| <= |s|
  {
    assert p == [] ==> OccursAt(p, s, 0);
    exists i | 0 <= i <= |s| - |p| :: OccursAt(p, s, i)
  }

  /** An occurrence of an occurrence is an occurrence. */
  lemma OccursAtTrans(a: string, b: string, c: string, i: int, j: int)
    requires OccursAt(a, b, i) && OccursAt(b, c, j)
    ensures OccursAt(a, c, j + i)
  {
    forall k | 0 <= k < |a|
      ensures c[j + i + k] == a[k]
    {
      assert b[i + k] == a[k];
      assert c[j + (i + k)] == b[i + k];
    }
  }

  /** Substring containment is transitive. */
  lemma SubstringTrans(a: string, b: string, c: string)
    requires IsSubstring(a, b) && IsSubstring(b, c)
    ensures IsSubstring(a, c)
  {
    var i :| 0 <= i <= |b| - |a| && OccursAt(a, b, i);
    var j :| 0 <= j <= |c| - |b| && OccursAt(b, c, j);
    OccursAtTrans(a, b, c, i, j);
  }

  /** A piece placed between two others occurs right after the first. */
  lemma OccursInConcat(a: string, p: string, b: string)
    ensures OccursAt(p, a + p + b, |a|)
  {
    assert (a + p + b)[|a|..|a| + |p|] == p;
  }

  /** Lower-casing the text keeps each occurrence of a phrase that has no
      upper-case letter. */
  lemma LowerKeepsLowerCaseOccurrence(p: string, s: string, i: int)
    requires OccursAt(p, s, i)
    requires forall c :: c in p ==> !IsUpper(c)
    ensures OccursAt(p, Lower(s), i)
  {
    var l := Lower(s);
    forall k | 0 <= k < |p|
      ensures l[i + k] == p[k]
    {
      assert s[i + k] == p[k];
      assert p[k] in p;
    }
  }

  /** Removes leading whitespace (`str.lstrip`). */
  function StripStart(s: string): (r: string)
    ensures |r| <= |s| && r == s[|s| - |r|..]
    ensures AllSpace(s[..|s| - |r|])
    ensures r == [] || !IsSpace(r[0])
  {
    if s != [] && IsSpace(s[0]) then
      var r := StripStart(s[1..]);
      assert s[..|s| - |r|] == [s[0]] + s[1..][..|s| - 1 - |r|];
      r
    else s
  }

  /** Removes trailing whitespace (`str.rstrip`). */
  function StripEnd(s: string): (r: string)
    ensures |r| <= |s| && r == s[..|r|]
    ensures AllSpace(s[|r|..])
    ensures r == [] || !IsSpace(r[|r| - 1])
  {
    if s != [] && IsSpace(s[|s| - 1]) then
      var r := StripEnd(s[..|s| - 1]);
      assert s[|r|..] == s[..|s| - 1][|r|..] + [s[|s| - 1]];
      r
    else s
  }

  /** `str.strip`: the text without its leading and trailing whitespace. */
  function Strip(s: string): (r: string)
    ensures |r| <= |s|
    ensures r == [] || (!IsSpace(r[0]) && !IsSpace(r[|r| - 1]))
  {
    StripEnd(StripStart(s))
  }

  /** Cutting a suffix `m` of `s` and a prefix `r` of `m` splits `s` in three. */
  lemma SplitInThree(s: string, m: string, r: string)
    requires |m| <= |s| && m == s[|s| - |m|..]
    requires |r| <= |m| && r == m[..|r|]
    ensures s == s[..|s| - |m|] + r + m[|r|..]
  {
    assert m == r + m[|r|..];
    assert s == s[..|s| - |m|] + m;
  }

  /** `s` is some whitespace `lead`, then `Strip(s)`, then some whitespace `trail`. */
  lemma StripRemovesOnlyEdges(s: string) returns (lead: string, trail: string)
    ensures s == lead + Strip(s) + trail
    ensures AllSpace(lead) && AllSpace(trail)
  {
    var m := StripStart(s);
    var r := StripEnd(m);
    lead, trail := s[..|s| - |m|], m[|r|..];
    SplitInThree(s, m, r);
  }

  /** Stripping leaves nothing exactly when the text is all whitespace. */
  lemma {:induction false} StripEmptyIff(s: string)
    ensures Strip(s) == [] <==> AllSpace(s)
  {
    var m := StripStart(s);
    if Strip(s) == [] {
      assert s == s[..|s| - |m|] + m;
      assert AllSpace(m) by {
        assert m == m[..0] + m[0..];
      }
    } else {
      var r := Strip(s);
      assert s[|s| - |m|] == r[0];
    }
  }

  /** Text that neither starts nor ends with whitespace is left as it is. */
  lemma StripOfTrimmed(s: string)
    requires s == [] || (!IsSpace(s[0]) && !IsSpace(s[|s| - 1]))
    ensures Strip(s) == s
  {
    assert StripStart(s) == s;
    assert StripEnd(s) == s;
  }

  /** Stripping twice is stripping once. */
  lemma StripIdempotent(s: string)
    ensures Strip(Strip(s)) == Strip(s)
  {
    StripOfTrimmed(Strip(s));
  }
}
