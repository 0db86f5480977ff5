/** String helpers shared by every filter in alerts.py: ASCII lower-casing,
    Python's substring test `kw in text`, `any(...)` over a keyword list and
    the `a or b or ...` fallback chains over optional string attributes. */
module Text {
  import opened Wrappers

  /** ASCII lower-casing of one character; all other characters are kept. */
  function LowerChar(c: char): (r: char)
    ensures 'A' <= c <= 'Z' ==> r as int == c as int + 32
    ensures !('A' <= c <= 'Z') ==> r == c
    ensures !('A' <= r <= 'Z')
  {
    if 'A' <= c <= 'Z' then (c as int + 32) as char else c
  }

  /** `s.lower()`, restricted to ASCII letters. */
  function Lower(s: string): (r: string)
    ensures |r| == |s|
    ensures forall i :: 0 <= i < |s| ==> r[i] == LowerChar(s[i])
  {
    seq(|s|, i requires 0 <= i < |s| => LowerChar(s[i]))
  }

  lemma LowerIdempotent(s: string)
    ensures Lower(Lower(s)) == Lower(s)
  {
    assert forall i :: 0 <= i < |s| ==> LowerChar(LowerChar(s[i])) == LowerChar(s[i]);
  }

  predicate StartsWith(s: string, prefix: string)
  {
    |prefix| <= |s| && s[..|prefix|] == prefix
  }

  /** Python's `kw in text`: a left-to-right scan for `kw` in `text`. */
  predicate Contains(text: string, kw: string)
    decreases |text|
  {
    StartsWith(text, kw) || (|text| > 0 && Contains(text[1..], kw))
  }

  /** Reference meaning of the scan: `kw` occurs at some position of `text`. */
  predicate OccursAt(text: string, kw: string, i: int)
  {
    0 <= i && i + |kw| <= |text| && text[i..i + |kw|] == kw
  }

  lemma {:induction false} ContainsIff(text: string, kw: string)
    ensures Contains(text, kw) <==> exists i :: OccursAt(text, kw, i)
    decreases |text|
  {
    if StartsWith(text, kw) {
      assert OccursAt(text, kw, 0);
    } else if |text| == 0 {
    } else {
      ContainsIff(text[1..], kw);
      if i :| OccursAt(text, kw, i) {
        assert text[1..][i - 1..i - 1 + |kw|] == text[i..i + |kw|];
        assert OccursAt(text[1..], kw, i - 1);
      }
      if j :| OccursAt(text[1..], kw, j) {
        assert text[1..][j..j + |kw|] == text[j + 1..j + 1 + |kw|];
        assert OccursAt(text, kw, j + 1);
      }
    }
  }

  /** `any(kw in text for kw in kws)`. */
  predicate AnyKeyword(kws: seq<string>, text: string)
  {
    exists kw | kw in kws :: Contains(text, kw)
  }

  /** `any(...)` over a keyword list holds exactly when some keyword occurs
      at some position of the text. */
  lemma AnyKeywordIff(kws: seq<string>, text: string)
    ensures AnyKeyword(kws, text) <==> exists k, i :: k in kws && OccursAt(text, k, i)
  {
    forall k | k in kws {
      ContainsIff(text, k);
    }
  }

  /** The text of an optional attribute; an absent one reads as "". */
  function Val(o: Option<string>): string
  {
    o.GetOr("")
  }

  /** Python's `a or b or ... or fallback` over optional string attributes:
      the first present, non-empty one, else `fallback`. */
  function FirstNonEmpty(xs: seq<Option<string>>, fallback: string): (r: string)
    ensures (forall i :: 0 <= i < |xs| ==> Val(xs[i]) == "") ==> r == fallback
    ensures (exists i :: 0 <= i < |xs| && Val(xs[i]) != "") ==>
              exists i :: 0 <= i < |xs| && Val(xs[i]) == r && r != "" &&
                (forall j :: 0 <= j < i ==> Val(xs[j]) == "")
  {
    if xs == [] then fallback
    else if Val(xs[0]) != "" then Val(xs[0])
    else
      var r := FirstNonEmpty(xs[1..], fallback);
      assert forall i :: 1 <= i < |xs| ==> xs[1..][i - 1] == xs[i];
      r
  }

  /** One step of the fallback chain. */
  lemma FirstNonEmptyStep(x: Option<string>, xs: seq<Option<string>>, fallback: string)
    ensures FirstNonEmpty([x] + xs, fallback) ==
      if Val(x) != "" then Val(x) else FirstNonEmpty(xs, fallback)
  {
    assert ([x] + xs)[1..] == xs;
  }
}
