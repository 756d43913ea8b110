/** String helpers the service applies to provider fields. */
module Text {

  predicate EndsWith(s: string, c: char) {
    |s| > 0 && s[|s| - 1] == c
  }

  /** Python's `s.rstrip(c)` for a single character: every trailing `c` removed. */
  function StripTrailing(s: string, c: char): (r: string)
    ensures r <= s
    ensures !EndsWith(r, c)
    ensures forall i :: |r| <= i < |s| ==> s[i] == c
  {
    if EndsWith(s, c) then StripTrailing(s[..|s| - 1], c) else s
  }

  /** `c` repeated `n` times. */
  function Repeat(c: char, n: nat): (r: string)
    ensures |r| == n && forall i :: 0 <= i < n ==> r[i] == c
  {
    if n == 0 then "" else Repeat(c, n - 1) + [c]
  }

  /** The result is the input with exactly its run of trailing `c` removed. */
  lemma StripTrailingSplits(s: string, c: char)
    ensures s == StripTrailing(s, c) + Repeat(c, |s| - |StripTrailing(s, c)|)
  {
  }

  /** Stripping is idempotent: a second `rstrip` changes nothing. */
  lemma StripTrailingIdempotent(s: string, c: char)
    ensures StripTrailing(StripTrailing(s, c), c) == StripTrailing(s, c)
  {
  }

  /** Appending any number of `c` to a string that does not end in `c` is undone exactly. */
  lemma {:induction false} StripTrailingRepeat(s: string, c: char, n: nat)
    requires !EndsWith(s, c)
    ensures StripTrailing(s + Repeat(c, n), c) == s
  {
    if n > 0 {
      assert (s + Repeat(c, n))[..|s| + n - 1] == s + Repeat(c, n - 1);
      StripTrailingRepeat(s, c, n - 1);
    }
  }
}
