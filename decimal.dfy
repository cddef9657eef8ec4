/**
 * Decimal rendering of natural numbers: what JavaScript's `Number.prototype.toString()`
 * gives for a non-negative integer below 2^53, where the double holds it exactly and
 * the rendering is plain digits. The element sandbox uses it to turn its counter into
 * tile ids; the counter is modelled as an unbounded natural.
 */
module Decimal {

  /** The character of one decimal digit. */
  function Digit(d: nat): (c: char)
    requires d < 10
    ensures '0' <= c <= '9'
    ensures c as int - '0' as int == d
  {
    (d + '0' as int) as char
  }

  /** `n.toString()` for a natural number `n`: most significant digit first, no leading zeros. */
  function NatToString(n: nat): (s: string)
    decreases n
  {
    if n < 10 then [Digit(n)] else NatToString(n / 10) + [Digit(n % 10)]
  }

  /** Every rendering is non-empty, has only digits, and has more than one digit exactly when `n >= 10`. */
  lemma {:induction false} NatToStringShape(n: nat)
    ensures 1 <= |NatToString(n)|
    ensures (n < 10) == (|NatToString(n)| == 1)
    ensures forall i :: 0 <= i < |NatToString(n)| ==> '0' <= NatToString(n)[i] <= '9'
    decreases n
  {
    if n >= 10 {
      NatToStringShape(n / 10);
    }
  }

  /** Distinct numbers have distinct renderings, so ids drawn from a counter never collide. */
  lemma {:induction false} NatToStringInjective(a: nat, b: nat)
    ensures NatToString(a) == NatToString(b) ==> a == b
    decreases a
  {
    NatToStringShape(a);
    NatToStringShape(b);
    var sa, sb := NatToString(a), NatToString(b);
    if sa == sb && a >= 10 && b >= 10 {
      assert sa[..|sa| - 1] == NatToString(a / 10);
      assert sb[..|sb| - 1] == NatToString(b / 10);
      NatToStringInjective(a / 10, b / 10);
      assert Digit(a % 10) == sa[|sa| - 1] == Digit(b % 10);
    }
  }
}
