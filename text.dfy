/**
 * The few java.lang.String operations the campground request relies on:
 * `indexOf`, `substring` and the `indexOf(..) != -1` containment test,
 * over strings as sequences of characters.
 */
module Text {

  datatype Option<T> = None | Some(value: T)

  /** `pat` occurs in `text` starting at index `i`. */
  predicate OccursAt(text: string, pat: string, i: int) {
    0 <= i && i + |pat| <= |text| && text[i..i + |pat|] == pat
  }

  /** `pat` occurs somewhere in `text` (the independent reference for the searches below). */
  ghost predicate Occurs(text: string, pat: string) {
    exists i :: OccursAt(text, pat, i)
  }

  /** The first occurrence of `pat` at or after `from`, or -1 (the search behind `indexOf`). */
  function IndexFrom(text: string, pat: string, from: nat): (r: int)
    ensures r == -1 ==> forall j :: from <= j ==> !OccursAt(text, pat, j)
    ensures r != -1 ==> from <= r && OccursAt(text, pat, r)
    ensures r != -1 ==> forall j :: from <= j < r ==> !OccursAt(text, pat, j)
    decreases |text| - from
  {
    if from + |pat| > |text| then -1
    else if text[from..from + |pat|] == pat then from
    else IndexFrom(text, pat, from + 1)
  }

  /** `String.indexOf(pat)`: -1 exactly when `pat` does not occur, otherwise its first position. */
  function IndexOf(text: string, pat: string): (r: int)
    ensures r == -1 <==> !Occurs(text, pat)
    ensures r != -1 ==> OccursAt(text, pat, r)
    ensures forall j :: 0 <= j < r ==> !OccursAt(text, pat, j)
  {
    IndexFrom(text, pat, 0)
  }

  /** The test `text.indexOf(pat) != -1` that every probe of the request uses. */
  function Contains(text: string, pat: string): (b: bool)
    ensures b <==> Occurs(text, pat)
  {
    IndexOf(text, pat) != -1
  }

  /**
   * `String.substring(begin, end)`: None stands for the
   * StringIndexOutOfBoundsException thrown on bad bounds.
   */
  function Substring(s: string, begin: int, end: int): (r: Option<string>)
    ensures r.Some? <==> 0 <= begin <= end <= |s|
    ensures r.Some? ==> |r.value| == end - begin
    ensures r.Some? ==> forall k :: 0 <= k < |r.value| ==> r.value[k] == s[begin + k]
  {
    if 0 <= begin && begin <= end && end <= |s| then Some(s[begin..end]) else None
  }

  /**
   * `text.substring(0, text.indexOf(marker))`: the part of `text` before the
   * first occurrence of `marker`, or None (the exception) when `marker` is absent.
   */
  function Before(text: string, marker: string): (r: Option<string>)
    ensures r.None? <==> !Occurs(text, marker)
    ensures r.Some? ==> r.value <= text && OccursAt(text, marker, |r.value|)
    ensures r.Some? ==> r.value + marker <= text
    ensures r.Some? ==> forall j :: 0 <= j < |r.value| ==> !OccursAt(text, marker, j)
  {
    Substring(text, 0, IndexOf(text, marker))
  }
}
