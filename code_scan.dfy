/**
 * The code extractor of the caption server: `CODE_REGEX.search(text).group(1)`
 * with the pattern `\b(\d{3,6})\b`. The search is modelled the way the regular
 * expression engine runs it: at each start position, left to right, test the
 * word boundary, take as many digits as `\d{3,6}` allows, and give digits back
 * one at a time until the closing boundary holds. It is then proved to find the
 * leftmost standalone run of three to six digits.
 */
module CodeScan {
  import opened Wrappers
  import opened AsciiText

  /** A match: the index where the code starts and its number of digits. */
  datatype Token = Token(start: nat, len: nat)

  /** Position `p` holds a word character (positions outside `s` do not). */
  predicate IsWordAt(s: string, p: int) {
    0 <= p < |s| && IsWordChar(s[p])
  }

  /** `\b` between positions `p - 1` and `p`. */
  predicate WordBoundary(s: string, p: int)
    ensures p == 0 ==> (WordBoundary(s, p) <==> 0 < |s| && IsWordChar(s[0]))
    ensures p == |s| ==> (WordBoundary(s, p) <==> 0 < |s| && IsWordChar(s[|s| - 1]))
    ensures 0 < p < |s| && IsDigit(s[p - 1]) && IsDigit(s[p]) ==> !WordBoundary(s, p)
    ensures (p < 0 || |s| < p) ==> !WordBoundary(s, p)
  {
    IsWordAt(s, p - 1) != IsWordAt(s, p)
  }

  /** The reference definition: `s[i..i + n]` is a code, that is three to six
      digits with no word character immediately before or after them. */
  predicate IsCodeAt(s: string, i: int, n: int) {
    0 <= i && i + n <= |s| && 3 <= n <= 6 &&
    (forall k :: i <= k < i + n ==> IsDigit(s[k])) &&
    !IsWordAt(s, i - 1) && !IsWordAt(s, i + n)
  }

  /** The length of the run of digits that starts at `i`. */
  function DigitRun(s: string, i: nat): (n: nat)
    requires i <= |s|
    ensures i + n <= |s|
    ensures forall k :: i <= k < i + n ==> IsDigit(s[k])
    ensures i + n == |s| || !IsDigit(s[i + n])
    decreases |s| - i
  {
    if i < |s| && IsDigit(s[i]) then 1 + DigitRun(s, i + 1) else 0
  }

  function Min(a: nat, b: nat): (r: nat)
    ensures r <= a && r <= b && (r == a || r == b)
  {
    if a <= b then a else b
  }

  /** Having taken `k` digits, accept if `\b` follows, otherwise give one back,
      and fail once fewer than three are left. */
  function Backtrack(s: string, i: nat, k: nat): (r: Option<nat>)
    requires i + k <= |s|
    ensures r.Some? ==> 3 <= r.value <= k && WordBoundary(s, i + r.value)
    ensures r.None? ==> forall p :: i + 3 <= p <= i + k ==> !WordBoundary(s, p)
    decreases k
  {
    if k < 3 then None
    else if WordBoundary(s, i + k) then Some(k)
    else Backtrack(s, i, k - 1)
  }

  /** The pattern tried at start position `i`: the length of the match, if any. */
  function MatchAt(s: string, i: nat): (r: Option<nat>)
    requires i <= |s|
    ensures r.Some? ==> IsCodeAt(s, i, r.value)
  {
    if WordBoundary(s, i) then Backtrack(s, i, Min(DigitRun(s, i), 6)) else None
  }

  /** The pattern matches at `i` with length `n` exactly when a code of `n`
      digits starts at `i`. */
  lemma MatchAtIsCode(s: string, i: nat, n: nat)
    requires i <= |s|
    ensures MatchAt(s, i) == Some(n) <==> IsCodeAt(s, i, n)
  {
  }

  /** `re.search` from position `i` on: the first start position at which the
      pattern matches. */
  function SearchFrom(s: string, i: nat): (r: Option<Token>)
    requires i <= |s|
    ensures r.Some? ==> i <= r.value.start && IsCodeAt(s, r.value.start, r.value.len)
    ensures r.Some? ==> forall j, m :: i <= j < r.value.start ==> !IsCodeAt(s, j, m)
    ensures r.None? ==> forall j, m :: i <= j ==> !IsCodeAt(s, j, m)
    decreases |s| - i
  {
    match MatchAt(s, i)
    case Some(n) =>
      MatchAtIsCode(s, i, n);
      Some(Token(i, n))
    case None =>
      assert forall m :: !IsCodeAt(s, i, m) by {
        forall m | IsCodeAt(s, i, m) ensures false {
          MatchAtIsCode(s, i, m);
        }
      }
      if i == |s| then None else SearchFrom(s, i + 1)
  }

  /** `CODE_REGEX.search(text)`: the leftmost match. */
  function Search(s: string): (r: Option<Token>)
    ensures r.Some? ==> IsCodeAt(s, r.value.start, r.value.len)
    ensures r.Some? ==> forall j, m :: 0 <= j < r.value.start ==> !IsCodeAt(s, j, m)
    ensures r.None? <==> forall j, m :: !IsCodeAt(s, j, m)
  {
    SearchFrom(s, 0)
  }

  /** `match.group(1)`, or no code when the search fails. */
  function FindCode(s: string): (r: Option<string>)
    ensures r.Some? <==> Search(s).Some?
    ensures r.Some? ==> 3 <= |r.value| <= 6 && forall k :: 0 <= k < |r.value| ==> IsDigit(r.value[k])
  {
    match Search(s)
    case Some(t) => Some(s[t.start..t.start + t.len])
    case None => None
  }

  /** A code is found exactly when some standalone run of three to six digits
      exists, and it is the text of the leftmost one. */
  lemma FindCodeIsLeftmost(s: string)
    ensures FindCode(s).None? <==> forall j, m :: !IsCodeAt(s, j, m)
    ensures FindCode(s).Some? ==>
      exists i :: IsCodeAt(s, i, |FindCode(s).value|) &&
        FindCode(s).value == s[i..i + |FindCode(s).value|] &&
        forall j, m :: 0 <= j < i ==> !IsCodeAt(s, j, m)
  {
    var r := Search(s);
    if r.Some? {
      var t := r.value;
      assert IsCodeAt(s, t.start, t.len);
      assert |FindCode(s).value| == t.len;
    }
  }

  /** The search returns one token per start position: the length is fixed by
      the start. */
  lemma CodeLengthIsDetermined(s: string, i: int, n: int, m: int)
    requires IsCodeAt(s, i, n) && IsCodeAt(s, i, m)
    ensures n == m
  {
  }

  /** `s[a..b]` is a maximal run of digits. */
  predicate IsDigitRun(s: string, a: int, b: int) {
    0 <= a <= b <= |s| &&
    (forall k :: a <= k < b ==> IsDigit(s[k])) &&
    (a == 0 || !IsDigit(s[a - 1])) && (b == |s| || !IsDigit(s[b]))
  }

  /** A code that overlaps a maximal run of digits is that whole run. */
  lemma CodeIsWholeRun(s: string, a: int, b: int, i: int, n: int)
    requires IsDigitRun(s, a, b) && IsCodeAt(s, i, n)
    requires i < b && a < i + n
    ensures i == a && i + n == b
  {
  }

  /** No code is taken from a run of fewer than three or more than six digits,
      nor from a run with a letter or `_` right before or after it. */
  lemma RejectedRunsGiveNoCode(s: string, a: int, b: int)
    requires IsDigitRun(s, a, b)
    requires b - a < 3 || b - a > 6 || IsWordAt(s, a - 1) || IsWordAt(s, b)
    ensures forall i, n :: IsCodeAt(s, i, n) ==> i + n <= a || b <= i
  {
    forall i, n | IsCodeAt(s, i, n) && i < b && a < i + n
      ensures false
    {
      CodeIsWholeRun(s, a, b, i, n);
    }
  }

  /** Conversely, the leftmost code is the one found. */
  lemma LeftmostCodeIsFound(s: string, i: int, n: int)
    requires IsCodeAt(s, i, n)
    requires forall j, m :: 0 <= j < i ==> !IsCodeAt(s, j, m)
    ensures FindCode(s) == Some(s[i..i + n])
  {
    var r := Search(s);
    assert r.Some?;
    var t := r.value;
    assert t.start == i;
    CodeLengthIsDetermined(s, i, n, t.len);
  }

  /** A caption with no digit before a final run of three to six digits, set
      off by a non-word character, yields that run. */
  lemma TrailingCodeIsFound(a: string, c: string)
    requires forall ch :: ch in a ==> !IsDigit(ch)
    requires a == [] || !IsWordChar(a[|a| - 1])
    requires 3 <= |c| <= 6 && forall ch :: ch in c ==> IsDigit(ch)
    ensures FindCode(a + c) == Some(c)
  {
    var s := a + c;
    assert IsCodeAt(s, |a|, |c|) by {
      forall k | |a| <= k < |a| + |c| ensures IsDigit(s[k]) {
        assert s[k] == c[k - |a|] && c[k - |a|] in c;
      }
    }
    forall j, m | 0 <= j < |a| ensures !IsCodeAt(s, j, m) {
      assert s[j] == a[j] && a[j] in a;
    }
    LeftmostCodeIsFound(s, |a|, |c|);
    assert s[|a|..|a| + |c|] == c;
  }

  /** Seven digits in a row are too many. */
  lemma SevenDigitsGiveNoCode()
    ensures FindCode("1234567") == None
  {
    var s := "1234567";
    assert IsDigitRun(s, 0, 7);
    RejectedRunsGiveNoCode(s, 0, 7);
    FindCodeIsLeftmost(s);
  }

  /** Digits right after letters are not standalone. */
  lemma DigitsAfterLettersGiveNoCode()
    ensures FindCode("abc123") == None
  {
    var s := "abc123";
    assert IsDigitRun(s, 3, 6);
    RejectedRunsGiveNoCode(s, 3, 6);
    FindCodeIsLeftmost(s);
  }

  /** Digits right before an underscore are not standalone. */
  lemma DigitsBeforeUnderscoreGiveNoCode()
    ensures FindCode("123_x") == None
  {
    var s := "123_x";
    assert IsDigitRun(s, 0, 3);
    RejectedRunsGiveNoCode(s, 0, 3);
    FindCodeIsLeftmost(s);
  }

  /** A dot separates tokens: the two-digit run is skipped and the three-digit
      run after the dot is the code. */
  lemma DigitsAfterDotGiveCode()
    ensures FindCode("12.345") == Some("345")
  {
    var s := "12.345";
    assert IsCodeAt(s, 3, 3);
    assert IsDigitRun(s, 0, 2);
    RejectedRunsGiveNoCode(s, 0, 2);
    FindCodeIsLeftmost(s);
    var c := FindCode(s).value;
    var i :| IsCodeAt(s, i, |c|) && c == s[i..i + |c|] && forall j, m :: 0 <= j < i ==> !IsCodeAt(s, j, m);
    assert i <= 3;
    assert i == 3;
    CodeLengthIsDetermined(s, 3, 3, |c|);
    assert c == s[3..6] == "345";
  }
}
