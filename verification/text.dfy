/**
 * String predicates the handlers rely on: ASCII case folding, substring
 * containment, white space and path-segment prefixes.
 */
module Text {

  /** Maps an upper-case ASCII letter to its lower-case form; every other character is kept. */
  function LowerAscii(c: char): (r: char)
    ensures 'A' <= c <= 'Z' ==> r as int == c as int + 32
    ensures !('A' <= c <= 'Z') ==> r == c
  {
    if 'A' <= c <= 'Z' then (c as int + 32) as char else c
  }

  /** Folds a whole string to lower case, character by character. */
  function Fold(s: string): (r: string)
    ensures |r| == |s|
    ensures forall i :: 0 <= i < |s| ==> r[i] == LowerAscii(s[i])
  {
    if |s| == 0 then [] else [LowerAscii(s[0])] + Fold(s[1..])
  }

  /** `needle` occurs in `hay` starting at index `i`. */
  ghost predicate OccursAt(hay: string, needle: string, i: int)
  {
    0 <= i <= |hay| - |needle| && hay[i..i + |needle|] == needle
  }

  /** Ordinal substring containment, scanning `hay` from the left. */
  predicate Contains(hay: string, needle: string)
    decreases |hay|
  {
    needle <= hay || (|hay| > 0 && Contains(hay[1..], needle))
  }

  /** `Contains` holds exactly when there is a position where the needle occurs. */
  lemma {:induction false} ContainsIff(hay: string, needle: string)
    ensures Contains(hay, needle) <==> exists i :: OccursAt(hay, needle, i)
    decreases |hay|
  {
    if needle <= hay {
      assert OccursAt(hay, needle, 0);
    } else if |hay| == 0 {
    } else {
      ContainsIff(hay[1..], needle);
      if Contains(hay[1..], needle) {
        var i :| OccursAt(hay[1..], needle, i);
        assert hay[i + 1..i + 1 + |needle|] == hay[1..][i..i + |needle|];
        assert OccursAt(hay, needle, i + 1);
      }
      if exists i :: OccursAt(hay, needle, i) {
        var i :| OccursAt(hay, needle, i);
        if i != 0 {
          assert hay[1..][i - 1..i - 1 + |needle|] == hay[i..i + |needle|];
          assert OccursAt(hay[1..], needle, i - 1);
        }
      }
    }
  }

  /** Every character of a contained needle occurs in the haystack. */
  lemma {:induction false} ContainedCharsOccur(hay: string, needle: string)
    requires Contains(hay, needle)
    ensures forall k :: 0 <= k < |needle| ==> needle[k] in hay
    decreases |hay|
  {
    if needle <= hay {
      assert forall k :: 0 <= k < |needle| ==> needle[k] == hay[k];
    } else {
      ContainedCharsOccur(hay[1..], needle);
      assert forall c :: c in hay[1..] ==> c in hay;
    }
  }

  /** Every string contains itself, and the empty string occurs everywhere. */
  lemma ContainsSelfAndEmpty(s: string, hay: string)
    ensures Contains(s, s)
    ensures Contains(hay, [])
  {
  }

  /** Case-insensitive containment, with case folding restricted to ASCII letters. */
  predicate ContainsIgnoreCase(hay: string, needle: string)
  {
    Contains(Fold(hay), Fold(needle))
  }

  /**
   * White space as the runtime's character classification defines it: the
   * space separators, the line and paragraph separators, the C0 controls
   * U+0009..U+000D and U+0085.
   */
  predicate IsWhiteSpace(c: char)
  {
    || c == ' ' || c == '\U{00A0}' || c == '\U{1680}'
    || ('\U{2000}' <= c <= '\U{200A}')
    || c == '\U{202F}' || c == '\U{205F}' || c == '\U{3000}'
    || c == '\U{2028}' || c == '\U{2029}'
    || ('\t' <= c <= '\r') || c == '\U{0085}'
  }

  /** A string that is empty or made only of white space. */
  predicate IsBlank(s: string)
  {
    forall i :: 0 <= i < |s| ==> IsWhiteSpace(s[i])
  }

  /** Prefix test ignoring the case of ASCII letters. */
  predicate PrefixIgnoreCase(prefix: string, s: string)
  {
    |prefix| <= |s| && Fold(prefix) == Fold(s[..|prefix|])
  }

  /**
   * `path` begins with the segment `segment`: the prefix matches ignoring
   * ASCII case and is either the whole path or followed by a '/'.
   */
  predicate StartsWithSegments(path: string, segment: string)
  {
    PrefixIgnoreCase(segment, path) && (|path| == |segment| || path[|segment|] == '/')
  }
}
