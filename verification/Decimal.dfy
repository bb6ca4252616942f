// Decimal printing (std::to_string) and reading (std::from_chars) of size_t values.

module Decimal {
  import opened Resp3

  datatype Option<+T> = None | Some(value: T)

  predicate IsDigit(c: char) {
    '0' <= c <= '9'
  }

  function DigitValue(c: char): (d: nat)
    requires IsDigit(c)
    ensures d < 10
  {
    (c - '0') as nat
  }

  function DigitChar(d: nat): (c: char)
    requires d < 10
    ensures IsDigit(c) && DigitValue(c) == d
  {
    '0' + d as char
  }

  function ToString(n: nat): (s: Bytes)
    ensures s != [] && forall c <- s :: IsDigit(c)
  {
    if n < 10 then [DigitChar(n)] else ToString(n / 10) + [DigitChar(n % 10)]
  }

  /** Where the run of digits that covers `s[..from]` ends. */
  function DigitsEnd(s: Bytes, from: nat): (k: nat)
    requires from <= |s| && forall i :: 0 <= i < from ==> IsDigit(s[i])
    ensures from <= k <= |s|
    ensures forall i :: 0 <= i < k ==> IsDigit(s[i])
    ensures k < |s| ==> !IsDigit(s[k])
    decreases |s| - from
  {
    if from == |s| || !IsDigit(s[from]) then from else DigitsEnd(s, from + 1)
  }

  /** The number written by the first `k` digits of `s`. */
  function Value(s: Bytes, k: nat): nat
    requires k <= |s| && forall i :: 0 <= i < k ==> IsDigit(s[i])
  {
    if k == 0 then 0 else 10 * Value(s, k - 1) + DigitValue(s[k - 1])
  }

  /** `to_int`: reads the leading digits and ignores what follows them; fails when there
      are none, and when the number does not fit. */
  function ToInt(s: Bytes): Option<nat> {
    var k := DigitsEnd(s, 0);
    if k == 0 || Value(s, k) > SIZE_MAX then None else Some(Value(s, k))
  }

  lemma {:induction false} ValueOfPrefix(s: Bytes, t: Bytes, k: nat)
    requires k <= |s| && forall i :: 0 <= i < k ==> IsDigit(s[i])
    ensures Value(s + t, k) == Value(s, k)
  {
    if k > 0 {
      ValueOfPrefix(s, t, k - 1);
    }
  }

  lemma AllDigits(n: nat)
    ensures forall i :: 0 <= i < |ToString(n)| ==> IsDigit(ToString(n)[i])
  {
    assert forall i | 0 <= i < |ToString(n)| :: ToString(n)[i] in ToString(n);
  }

  lemma {:induction false} ValueOfToString(n: nat)
    requires forall i :: 0 <= i < |ToString(n)| ==> IsDigit(ToString(n)[i])
    ensures Value(ToString(n), |ToString(n)|) == n
  {
    if n >= 10 {
      var s := ToString(n / 10);
      AllDigits(n / 10);
      ValueOfToString(n / 10);
      ValueOfPrefix(s, [DigitChar(n % 10)], |s|);
    }
  }

  /** Reading undoes printing, for every number a `size_t` can hold and for no other. */
  lemma ToIntOfToString(n: nat)
    ensures ToInt(ToString(n)) == if n <= SIZE_MAX then Some(n) else None
  {
    AllDigits(n);
    ValueOfToString(n);
    assert DigitsEnd(ToString(n), 0) == |ToString(n)|;
  }

  /** What follows the digits is ignored. */
  lemma ToIntIgnoresTail(n: nat, tail: Bytes)
    requires tail != "" ==> !IsDigit(tail[0])
    ensures ToInt(ToString(n) + tail) == if n <= SIZE_MAX then Some(n) else None
  {
    var s := ToString(n);
    AllDigits(n);
    ValueOfToString(n);
    ValueOfPrefix(s, tail, |s|);
    assert forall i | 0 <= i < |s| :: (s + tail)[i] == s[i];
    assert tail != "" ==> (s + tail)[|s|] == tail[0];
    assert DigitsEnd(s + tail, 0) == |s|;
  }

  /** Without a digit in front there is no number. */
  lemma ToIntNeedsDigit(s: Bytes)
    ensures s == "" || !IsDigit(s[0]) ==> ToInt(s) == None
  {
  }

  lemma ToStringHasNoSep(n: nat)
    ensures forall c <- ToString(n) :: c != '\r' && c != '?'
  {
  }
}
