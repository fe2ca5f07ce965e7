/**
 * The keyword detector of the caption server: the fixed phrase list and
 * `contains_keyword`, which lower-cases the caption and returns the first phrase
 * of the list, in list order, that occurs in it.
 */
module Keywords {
  import opened Wrappers
  import opened AsciiText

  /** The phrases, in the order they are tried. */
  const KEYWORDS: seq<string> := [
    "attendance",
    "attendence",
    "enter the code",
    "attendance code",
    "submit your attendance",
    "mark your attendance",
    "fill the attendance",
    "the code is"
  ]

  /** Entry `i` of `ks` is the one a first-match scan of `ks` over `t` stops at:
      it occurs in `t` and no earlier entry does. */
  predicate IsFirstMatchAt(ks: seq<string>, t: string, i: int) {
    0 <= i < |ks| && IsSubstring(ks[i], t) &&
    forall j :: 0 <= j < i ==> !IsSubstring(ks[j], t)
  }

  /** The first entry of `ks` that occurs in `t`, if any. */
  function FirstMatch(ks: seq<string>, t: string): (r: Option<string>)
    ensures r.Some? ==> r.value in ks && IsSubstring(r.value, t)
    ensures r.None? <==> forall j :: 0 <= j < |ks| ==> !IsSubstring(ks[j], t)
  {
    if ks == [] then None
    else if IsSubstring(ks[0], t) then Some(ks[0])
    else
      var r := FirstMatch(ks[1..], t);
      assert forall j :: 1 <= j < |ks| ==> ks[j] == ks[1..][j - 1];
      r
  }

  /** What `FirstMatch` returns is the entry at the lowest index that occurs. */
  lemma {:induction false} FirstMatchIsLowest(ks: seq<string>, t: string)
    requires FirstMatch(ks, t).Some?
    ensures exists i :: IsFirstMatchAt(ks, t, i) && ks[i] == FirstMatch(ks, t).value
  {
    if !IsSubstring(ks[0], t) {
      FirstMatchIsLowest(ks[1..], t);
      var i :| IsFirstMatchAt(ks[1..], t, i) && ks[1..][i] == FirstMatch(ks[1..], t).value;
      assert IsFirstMatchAt(ks, t, i + 1);
    } else {
      assert IsFirstMatchAt(ks, t, 0);
    }
  }

  /** Conversely, the entry at the lowest index that occurs is what `FirstMatch` returns. */
  lemma {:induction false} LowestIsFirstMatch(ks: seq<string>, t: string, i: int)
    requires IsFirstMatchAt(ks, t, i)
    ensures FirstMatch(ks, t) == Some(ks[i])
  {
    if i > 0 {
      assert !IsSubstring(ks[0], t);
      assert IsFirstMatchAt(ks[1..], t, i - 1) by {
        forall j | 0 <= j < i - 1 ensures !IsSubstring(ks[1..][j], t) {
          assert ks[1..][j] == ks[j + 1];
        }
      }
      LowestIsFirstMatch(ks[1..], t, i - 1);
    }
  }

  /** The specification of `contains_keyword`: the first phrase of `KEYWORDS`
      that occurs in the lower-cased caption. */
  function Keyword(text: string): (r: Option<string>)
    ensures r.Some? ==> r.value in KEYWORDS && IsSubstring(r.value, Lower(text))
    ensures r.None? <==> forall j :: 0 <= j < |KEYWORDS| ==> !IsSubstring(KEYWORDS[j], Lower(text))
  {
    FirstMatch(KEYWORDS, Lower(text))
  }

  /** `contains_keyword`: lower-case once, then try the phrases in order and
      return the first one found. */
  method ContainsKeyword(text: string) returns (kw: Option<string>)
    ensures kw == Keyword(text)
    ensures kw.Some? ==> exists i :: IsFirstMatchAt(KEYWORDS, Lower(text), i) && KEYWORDS[i] == kw.value
    ensures kw.None? <==> forall j :: 0 <= j < |KEYWORDS| ==> !IsSubstring(KEYWORDS[j], Lower(text))
  {
    var t := Lower(text);
    for i := 0 to |KEYWORDS|
      invariant forall j :: 0 <= j < i ==> !IsSubstring(KEYWORDS[j], t)
    {
      if IsSubstring(KEYWORDS[i], t) {
        assert IsFirstMatchAt(KEYWORDS, t, i);
        LowestIsFirstMatch(KEYWORDS, t, i);
        return Some(KEYWORDS[i]);
      }
    }
    return None;
  }

  /** Each of entries 3 to 6 contains entry 0, "attendance". */
  lemma LaterPhrasesContainAttendance(i: int)
    requires 3 <= i <= 6
    ensures IsSubstring(KEYWORDS[0], KEYWORDS[i])
  {
    if i == 3 {
      assert OccursAt(KEYWORDS[0], KEYWORDS[3], 0);
    } else if i == 4 {
      assert OccursAt(KEYWORDS[0], KEYWORDS[4], 12);
    } else if i == 5 {
      assert OccursAt(KEYWORDS[0], KEYWORDS[5], 10);
    } else {
      assert OccursAt(KEYWORDS[0], KEYWORDS[6], 9);
    }
  }

  /** Because "attendance" comes first in the list, the four longer phrases
      built around it are never reported: the detector only ever answers one of
      "attendance", "attendence", "enter the code" and "the code is". */
  lemma KeywordIsNeverLongerAttendancePhrase(text: string)
    ensures Keyword(text).Some? ==>
      Keyword(text).value in {"attendance", "attendence", "enter the code", "the code is"}
    ensures Keyword(text) != Some("attendance code")
    ensures Keyword(text) != Some("submit your attendance")
    ensures Keyword(text) != Some("mark your attendance")
    ensures Keyword(text) != Some("fill the attendance")
  {
    var t := Lower(text);
    if Keyword(text).Some? {
      FirstMatchIsLowest(KEYWORDS, t);
      var i :| IsFirstMatchAt(KEYWORDS, t, i) && KEYWORDS[i] == Keyword(text).value;
      if 3 <= i <= 6 {
        LaterPhrasesContainAttendance(i);
        SubstringTrans(KEYWORDS[0], KEYWORDS[i], t);
        assert false;
      }
      assert i == 0 || i == 1 || i == 2 || i == 7;
    }
  }

  /** Whenever "attendance" occurs in the lower-cased caption, it is the answer,
      whatever other phrases occur too. */
  lemma AttendanceWins(text: string)
    requires IsSubstring("attendance", Lower(text))
    ensures Keyword(text) == Some("attendance")
  {
    assert IsFirstMatchAt(KEYWORDS, Lower(text), 0);
    LowestIsFirstMatch(KEYWORDS, Lower(text), 0);
  }

  /** Matching ignores case: a caption and its lower-case form give the same
      answer, and the phrase returned occurs in the lower-cased caption. */
  lemma KeywordIgnoresCase(text: string)
    ensures Keyword(text) == Keyword(Lower(text))
    ensures Keyword(text).Some? ==> IsSubstring(Keyword(text).value, Lower(text))
  {
    LowerIdempotent(text);
  }
}
