/** Vocabulary shared by the component models. */
module Common {

  datatype Option<+T> = None | Some(value: T)

  function Max(a: int, b: int): int { if a < b then b else a }

  function Min(a: int, b: int): int { if a < b then a else b }

  /** Length of the longest all-true suffix. */
  function TrailingTrue(s: seq<bool>): (n: nat)
    ensures n <= |s|
    ensures forall i :: |s| - n <= i < |s| ==> s[i]
    ensures n < |s| ==> !s[|s| - n - 1]
  {
    if s == [] || !s[|s| - 1] then 0 else 1 + TrailingTrue(s[..|s| - 1])
  }

  /** Division of integers truncated toward zero, as Go's `/` does. */
  function TruncDiv(a: int, b: int): (q: int)
    requires b > 0
    ensures -b < a - q * b < b
    ensures a >= 0 ==> 0 <= a - q * b
    ensures a <= 0 ==> a - q * b <= 0
  {
    if a >= 0 then a / b else -((-a) / b)
  }

  /** Dropping the last element of an extended sequence gives the sequence back. */
  lemma Snoc<T>(s: seq<T>, x: T)
    ensures (s + [x])[..|s + [x]| - 1] == s
    ensures (s + [x])[|s + [x]| - 1] == x
  {
  }

  /** One more element lengthens the trailing run, or ends it. */
  lemma TrailingExtended(s: seq<bool>, last: bool)
    ensures TrailingTrue(s + [last]) == if last then TrailingTrue(s) + 1 else 0
  {
    Snoc(s, last);
  }
}
