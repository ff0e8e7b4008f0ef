/**
 The two Python string builtins the reasoning printer relies on:
 repetition (`'=' * n`) and `str.center(width)` with the default space fill.
 Strings are sequences of Unicode scalar values; Python's lone
 surrogate code points are not representable.
 */
module PyText {

  function Max(a: int, b: int): int
  {
    if a < b then b else a
  }

  /** `c * n` for a one-character string `c`. */
  function Repeat(c: char, n: nat): (r: string)
    ensures |r| == n
    ensures forall i :: 0 <= i < n ==> r[i] == c
  {
    if n == 0 then "" else Repeat(c, n - 1) + [c]
  }

  /** The number of fill characters CPython's `str.center` puts on the left
      when a string of length `len` is centred in `width` columns: half the
      margin, rounded up only when both margin and width are odd. */
  function CenterLeft(len: nat, width: nat): nat
  {
    if len >= width then 0
    else
      var marg := width - len;
      marg / 2 + (if marg % 2 == 1 && width % 2 == 1 then 1 else 0)
  }

  /** `s.center(width)`: `s` unchanged when it already fills the width,
      otherwise `s` padded with spaces on both sides to exactly `width`. */
  function Center(s: string, width: nat): (r: string)
    ensures |r| == Max(width, |s|)
    ensures CenterLeft(|s|, width) + |s| <= |r|
    ensures r[CenterLeft(|s|, width)..CenterLeft(|s|, width) + |s|] == s
    ensures forall i :: 0 <= i < CenterLeft(|s|, width) ==> r[i] == ' '
    ensures forall i :: CenterLeft(|s|, width) + |s| <= i < |r| ==> r[i] == ' '
    ensures |s| >= width ==> r == s
  {
    if |s| >= width then s
    else
      var left := CenterLeft(|s|, width);
      Repeat(' ', left) + s + Repeat(' ', width - |s| - left)
  }

  /** The padding is balanced: the two sides differ by at most one space. */
  lemma CenterBalanced(s: string, width: nat)
    requires |s| < width
    ensures var left := CenterLeft(|s|, width);
            var right := width - |s| - left;
            right <= left + 1 && left <= right + 1
  {
  }
}
