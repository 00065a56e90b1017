/** Fixed-width big-endian numerals, in base 256 (UUID and integer bytes) and base 16 (UUID text). */
module Digits {

  type Base = b: int | b == 16 || b == 256 witness 16

  function Pow(b: Base, n: nat): (p: nat)
    ensures p > 0
  {
    if n == 0 then 1 else b * Pow(b, n - 1)
  }

  ghost predicate IsNumeral(b: Base, ds: seq<int>) {
    forall i | 0 <= i < |ds| :: 0 <= ds[i] < b
  }

  /** The `n` digits of `v`, most significant first. */
  function ToDigits(b: Base, n: nat, v: nat): seq<int> {
    if n == 0 then [] else ToDigits(b, n - 1, v / b) + [v % b]
  }

  function FromDigits(b: Base, ds: seq<int>): (v: int) {
    if ds == [] then 0 else FromDigits(b, ds[..|ds| - 1]) * b + ds[|ds| - 1]
  }

  lemma {:induction false} ToDigitsIsNumeral(b: Base, n: nat, v: nat)
    ensures |ToDigits(b, n, v)| == n && IsNumeral(b, ToDigits(b, n, v))
  {
    if n > 0 {
      ToDigitsIsNumeral(b, n - 1, v / b);
    }
  }

  lemma {:induction false} DigitsRoundTrip(b: Base, n: nat, v: nat)
    requires v < Pow(b, n)
    ensures FromDigits(b, ToDigits(b, n, v)) == v
  {
    if n > 0 {
      assert v / b < Pow(b, n - 1);
      DigitsRoundTrip(b, n - 1, v / b);
      assert ToDigits(b, n, v)[..|ToDigits(b, n, v)| - 1] == ToDigits(b, n - 1, v / b);
    }
  }

  lemma {:induction false} NumeralRoundTrip(b: Base, ds: seq<int>)
    requires IsNumeral(b, ds)
    ensures 0 <= FromDigits(b, ds) < Pow(b, |ds|)
    ensures ToDigits(b, |ds|, FromDigits(b, ds)) == ds
  {
    if ds != [] {
      var front, last := ds[..|ds| - 1], ds[|ds| - 1];
      NumeralRoundTrip(b, front);
      assert FromDigits(b, ds) / b == FromDigits(b, front) && FromDigits(b, ds) % b == last;
      assert ds == front + [last];
    }
  }

  /** Where the numerals of `u < v` part: equal before `k`, smaller at `k`. */
  ghost predicate PartAt(s: seq<int>, t: seq<int>, k: nat) {
    && k < |s| && k < |t| && s[k] < t[k]
    && (forall i | 0 <= i < k :: s[i] == t[i])
  }

  lemma Quotients(b: Base, u: nat, v: nat, bound: nat)
    requires u < v < b * bound
    ensures u / b <= v / b < bound
    ensures u / b == v / b ==> u % b < v % b
  {
  }

  lemma {:induction false} SmallerPartsFirst(b: Base, n: nat, u: nat, v: nat) returns (k: nat)
    requires u < v < Pow(b, n)
    ensures k < n && PartAt(ToDigits(b, n, u), ToDigits(b, n, v), k)
  {
    Quotients(b, u, v, Pow(b, n - 1));
    ToDigitsIsNumeral(b, n - 1, u / b);
    ToDigitsIsNumeral(b, n - 1, v / b);
    if u / b < v / b {
      k := SmallerPartsFirst(b, n - 1, u / b, v / b);
    } else {
      k := n - 1;
    }
  }
}
