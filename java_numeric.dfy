/**
 * Java's numeric conversions that the engine relies on: the `(int)` cast of a
 * float or double, which truncates toward zero, and `/` on `int` by 2, which also
 * truncates toward zero (Dafny's `/` on `int` is Euclidean).
 */
module JavaNumeric {

  /** `(int) r` for a finite float or double inside the int range. */
  function TruncToZero(r: real): (n: int)
    ensures r >= 0.0 ==> n as real <= r < n as real + 1.0
    ensures r < 0.0 ==> n as real - 1.0 < r <= n as real
  {
    if r >= 0.0 then r.Floor else -((-r).Floor)
  }

  /** Java's `a / 2` on `int`: the half of `a`, rounded toward zero. */
  function JavaHalf(a: int): (q: int)
    ensures a >= 0 ==> 0 <= 2 * q <= a <= 2 * q + 1
    ensures a < 0 ==> 2 * q - 1 <= a <= 2 * q <= 0
  {
    if a >= 0 then a / 2 else -((-a) / 2)
  }

  /** Halving an int in Java and halving it as a real number then casting agree. */
  lemma JavaHalfIsTruncatedHalf(a: int)
    ensures JavaHalf(a) == TruncToZero(a as real / 2.0)
  {
    var q := JavaHalf(a);
    var r := a as real / 2.0;
    if a >= 0 {
      assert q as real <= r < q as real + 1.0;
    } else {
      assert q as real - 1.0 < r <= q as real;
    }
  }
}
