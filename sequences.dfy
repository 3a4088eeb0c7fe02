/** First-match search over sequences, as `Array.prototype.find` and `indexOf` do it. */
module Sequences {

  /** The position of the first `x` in `s`, or `|s|` when there is none. */
  function FirstIndexOf<T(==)>(s: seq<T>, x: T): (k: nat)
    ensures k <= |s|
    ensures k < |s| ==> s[k] == x
    ensures forall j :: 0 <= j < k ==> s[j] != x
  {
    if |s| == 0 then 0
    else if s[0] == x then 0
    else 1 + FirstIndexOf(s[1..], x)
  }
}
