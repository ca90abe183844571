/** The `shortenId` pipe: an id shown as its first eight characters and "...". */
module Pipes {

  function Min(a: int, b: int): int {
    if a <= b then a else b
  }

  /** `String.prototype.substring(start, end)`: both ends clamped to the string,
      swapped when given in reverse order. */
  function Substring(s: string, start: int, end: int): (r: string)
    ensures |r| <= |s|
    ensures 0 <= start <= end ==> r == s[Min(start, |s|)..Min(end, |s|)]
    ensures 0 <= end <= start ==> r == s[Min(end, |s|)..Min(start, |s|)]
    ensures start <= 0 && end <= 0 ==> r == ""
    ensures start <= 0 <= end ==> r == s[..Min(end, |s|)]
    ensures end <= 0 <= start ==> r == s[..Min(start, |s|)]
  {
    var a := if start < 0 then 0 else Min(start, |s|);
    var b := if end < 0 then 0 else Min(end, |s|);
    if a <= b then s[a..b] else s[b..a]
  }

  /** `ShortenIdPipe.transform`: empty for an empty id; otherwise the first
      `min(8, |value|)` characters followed by three dots. */
  function ShortenId(value: string): (r: string)
    ensures value == "" ==> r == ""
    ensures value != "" ==> |r| == Min(8, |value|) + 3
    ensures value != "" ==> r[..|r| - 3] == value[..Min(8, |value|)] && r[|r| - 3..] == "..."
  {
    if value == "" then "" else Substring(value, 0, 8) + "..."
  }

  /** An id of at most eight characters is shown whole. */
  lemma ShortIdShownWhole(value: string)
    requires 0 < |value| <= 8
    ensures ShortenId(value) == value + "..."
  {
    assert value[..|value|] == value;
  }

  /** Two non-empty ids are shown alike exactly when their first eight
      characters (all of them, if fewer) agree. */
  lemma ShortenIdSameIffSamePrefix(a: string, b: string)
    requires a != "" && b != ""
    ensures ShortenId(a) == ShortenId(b) <==> a[..Min(8, |a|)] == b[..Min(8, |b|)]
  {
    var ra, rb := ShortenId(a), ShortenId(b);
    if a[..Min(8, |a|)] == b[..Min(8, |b|)] {
      assert ra == ra[..|ra| - 3] + ra[|ra| - 3..];
      assert rb == rb[..|rb| - 3] + rb[|rb| - 3..];
    }
    if ra == rb {
      assert ra[..|ra| - 3] == rb[..|rb| - 3];
    }
  }
}
