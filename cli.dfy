/** The pieces of main.go that compute rather than wire up I/O: the check of
    the word-length bounds and the truncation of a status line. */
module Cli {
  /** Go strings are byte strings: `len` and slicing count bytes. */
  newtype byte = x: int | 0 <= x < 256

  /** outputLength: the width of a status line that overwrites the previous one. */
  const OutputLength: nat := 75

  /** "..." in ASCII. */
  const Ellipsis: seq<byte> := [0x2E, 0x2E, 0x2E]

  /** The min_len/max_len flags: a word of `n` bytes is tracked when it is at
      least `minLen` long and, unless `maxLen` is 0 (no upper limit), at most
      `maxLen` long; a `minLen` of 0 sets no lower limit. */
  predicate Admits(minLen: nat, maxLen: nat, n: nat) {
    minLen <= n && (maxLen == 0 || n <= maxLen)
  }

  /** The check main applies before crawling: it refuses to run with no bound
      at all, or with an upper bound below the lower one. */
  predicate ValidLengthBounds(minLen: nat, maxLen: nat) {
    !((minLen == 0 && maxLen == 0) || (maxLen > 0 && minLen > maxLen))
  }

  /** The bounds are accepted exactly when at least one of them is set and
      some non-empty word length lies within them. */
  lemma ValidBoundsMeaning(minLen: nat, maxLen: nat)
    ensures ValidLengthBounds(minLen, maxLen) <==>
            (minLen > 0 || maxLen > 0) && exists n: nat :: n > 0 && Admits(minLen, maxLen, n)
  {
    if ValidLengthBounds(minLen, maxLen) {
      var n: nat := if minLen == 0 then 1 else minLen;
      assert n > 0 && Admits(minLen, maxLen, n);
    }
  }

  /** The cases of the check one by one: no bound at all is refused, an upper
      bound below the lower one is refused, equal bounds are accepted, and any
      lower bound is accepted without an upper bound. */
  lemma LengthBoundCases(minLen: nat, maxLen: nat)
    ensures !ValidLengthBounds(0, 0)
    ensures maxLen > 0 && minLen > maxLen ==> !ValidLengthBounds(minLen, maxLen)
    ensures minLen > 0 ==> ValidLengthBounds(minLen, minLen)
    ensures minLen > 0 ==> ValidLengthBounds(minLen, 0)
    ensures maxLen > 0 && minLen <= maxLen ==> ValidLengthBounds(minLen, maxLen)
  {
  }

  /** The status-line text on a terminal (showStatusLine): text longer than
      outputLength is cut to its first outputLength - 3 bytes followed by
      "...". */
  function Truncate(text: seq<byte>): (r: seq<byte>)
    ensures |text| > OutputLength ==>
              |r| == OutputLength && r[..OutputLength - 3] == text[..OutputLength - 3]
              && r[OutputLength - 3..] == Ellipsis
    ensures |text| <= OutputLength ==> r == text
  {
    if |text| > OutputLength then text[..OutputLength - 3] + Ellipsis else text
  }

  /** A truncated line fits the width, and truncating it again changes nothing. */
  lemma TruncateIdempotent(text: seq<byte>)
    ensures |Truncate(text)| <= OutputLength
    ensures Truncate(Truncate(text)) == Truncate(text)
  {
  }
}
