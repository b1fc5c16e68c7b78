/**
 * The few JavaScript string operations the screens rely on: the whitespace
 * class used by `\s` and `String.prototype.trim`, `toLowerCase` (on ASCII
 * letters) and `String.prototype.includes`.
 */
module JsText {

  /** A code point that ECMAScript counts as WhiteSpace or LineTerminator
      (the set matched by `\s` and removed by `trim`). */
  predicate IsWhitespace(c: char)
  {
    var n := c as int;
    n == 0x09 || n == 0x0A || n == 0x0B || n == 0x0C || n == 0x0D || n == 0x20
    || n == 0xA0 || n == 0x1680 || (0x2000 <= n <= 0x200A) || n == 0x2028
    || n == 0x2029 || n == 0x202F || n == 0x205F || n == 0x3000 || n == 0xFEFF
  }

  /** `s.trim() === ''`: every character is whitespace. */
  predicate IsBlank(s: string)
  {
    forall i :: 0 <= i < |s| ==> IsWhitespace(s[i])
  }

  /** `toLowerCase` on one character, restricted to the ASCII letters. */
  function LowerChar(c: char): char
  {
    if 'A' <= c <= 'Z' then (c as int + 32) as char else c
  }

  function ToLower(s: string): (r: string)
    ensures |r| == |s|
    ensures forall i :: 0 <= i < |s| ==> r[i] == LowerChar(s[i])
  {
    seq(|s|, i requires 0 <= i < |s| => LowerChar(s[i]))
  }

  /** `needle` sits in `hay` starting at index `i`. */
  ghost predicate OccursAt(hay: string, needle: string, i: int)
  {
    0 <= i && i + |needle| <= |hay| && hay[i..i + |needle|] == needle
  }

  /** `hay.includes(needle)`, scanning the start positions left to right. */
  function Includes(hay: string, needle: string): (r: bool)
    ensures r <==> exists i :: OccursAt(hay, needle, i)
    decreases |hay|
  {
    if |needle| <= |hay| && hay[..|needle|] == needle then
      assert OccursAt(hay, needle, 0);
      true
    else if |hay| == 0 then
      false
    else
      IncludesShift(hay, needle);
      Includes(hay[1..], needle)
  }

  /** Occurrences in `hay[1..]` are the occurrences in `hay` past index 0. */
  lemma IncludesShift(hay: string, needle: string)
    requires |hay| > 0
    requires !(|needle| <= |hay| && hay[..|needle|] == needle)
    ensures (exists i :: OccursAt(hay, needle, i)) <==> (exists j :: OccursAt(hay[1..], needle, j))
  {
    forall i | OccursAt(hay, needle, i)
      ensures OccursAt(hay[1..], needle, i - 1)
    {
      assert i != 0;
      assert hay[1..][i - 1..i - 1 + |needle|] == hay[i..i + |needle|];
    }
    forall j | OccursAt(hay[1..], needle, j)
      ensures OccursAt(hay, needle, j + 1)
    {
      assert hay[1..][j..j + |needle|] == hay[j + 1..j + 1 + |needle|];
    }
  }

  /** The empty string is contained in every string. */
  lemma IncludesEmpty(hay: string)
    ensures Includes(hay, "")
  {
    assert OccursAt(hay, "", 0);
  }
}
