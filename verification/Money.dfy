/** Decimal money: rounding to minor units, halves away from zero.

    The program rounds with the decimal mode that sends a half away from zero, and quantises every
    amount that becomes a `Money`. */
module Money {

  /** Nearest integer, ties away from zero. */
  function HalfUp(x: real): int {
    if x >= 0.0 then (x + 0.5).Floor else -((0.5 - x).Floor)
  }

  /** An amount rounded to cents. */
  function Quantize(amount: real): real {
    HalfUp(amount * 100.0) as real / 100.0
  }

  predicate WholeCents(amount: real) {
    (amount * 100.0).Floor as real == amount * 100.0
  }

  function Abs(x: real): real {
    if x < 0.0 then -x else x
  }

  function Min(x: real, y: real): real {
    if y < x then y else x
  }

  function Max(x: real, y: real): real {
    if y > x then y else x
  }

  lemma HalfUpBounds(x: real)
    ensures -0.5 <= HalfUp(x) as real - x <= 0.5
    ensures x >= 0.0 ==> HalfUp(x) >= 0
    ensures x <= 0.0 ==> HalfUp(x) <= 0
  {
  }

  lemma HalfUpIsInteger(x: real, n: int)
    requires x == n as real
    ensures HalfUp(x) == n
  {
  }

  lemma HalfUpMonotone(x: real, y: real)
    requires x <= y
    ensures HalfUp(x) <= HalfUp(y)
  {
    if x >= 0.0 {
      assert (x + 0.5).Floor <= (y + 0.5).Floor;
    } else if y < 0.0 {
      assert (0.5 - x).Floor >= (0.5 - y).Floor;
    } else {
      HalfUpBounds(x);
      HalfUpBounds(y);
    }
  }

  /** Rounding moves an amount by at most half a cent, in either direction. */
  lemma QuantizeError(amount: real)
    ensures -0.005 <= Quantize(amount) - amount <= 0.005
  {
    HalfUpBounds(amount * 100.0);
  }

  lemma QuantizeIsWhole(amount: real)
    ensures WholeCents(Quantize(amount))
  {
    assert Quantize(amount) * 100.0 == HalfUp(amount * 100.0) as real;
  }

  /** Amounts already in cents are fixed points, so equality of stored amounts is meaningful. */
  lemma QuantizeFixesCents(amount: real)
    ensures WholeCents(amount) <==> Quantize(amount) == amount
  {
    if WholeCents(amount) {
      HalfUpIsInteger(amount * 100.0, (amount * 100.0).Floor);
    } else {
      QuantizeIsWhole(amount);
    }
  }

  /** Rounding treats both signs alike, so half a cent goes away from zero on either side. */
  lemma QuantizeIsOdd(amount: real)
    ensures Quantize(-amount) == -Quantize(amount)
    ensures Quantize(0.005) == 0.01 && Quantize(-0.005) == -0.01
  {
  }

  /** Rounding is idempotent. */
  lemma QuantizeTwice(amount: real)
    ensures WholeCents(Quantize(amount)) && Quantize(Quantize(amount)) == Quantize(amount)
  {
    QuantizeIsWhole(amount);
    QuantizeFixesCents(Quantize(amount));
  }

  lemma QuantizeMonotone(x: real, y: real)
    requires x <= y
    ensures Quantize(x) <= Quantize(y)
  {
    HalfUpMonotone(x * 100.0, y * 100.0);
  }

  lemma IntegerFloor(x: real, n: int)
    requires x == n as real
    ensures x.Floor as real == x
  {
  }

  lemma WholeCentsSum(x: real, y: real)
    requires WholeCents(x) && WholeCents(y)
    ensures WholeCents(x + y) && WholeCents(x - y)
  {
    var a, b := (x * 100.0).Floor, (y * 100.0).Floor;
    IntegerFloor((x + y) * 100.0, a + b);
    IntegerFloor((x - y) * 100.0, a - b);
  }

  lemma WholeCentsOf(n: int)
    ensures WholeCents(n as real)
  {
    assert n as real * 100.0 == (n * 100) as real;
  }

  /** An amount rounds to a whole-cent value `limit` or below exactly when it is less than half a cent
      above it (for non-negative amounts). */
  lemma QuantizeAtMost(amount: real, limit: real)
    requires WholeCents(limit) && limit >= 0.0
    ensures Quantize(amount) <= limit <==> amount < limit + 0.005
  {
    var n := (limit * 100.0).Floor;
    assert limit * 100.0 == n as real;
    var x := amount * 100.0;
    assert Quantize(amount) <= limit <==> HalfUp(x) <= n;
    if x >= 0.0 {
      assert HalfUp(x) <= n <==> x + 0.5 < (n + 1) as real;
    } else {
      HalfUpBounds(x);
    }
    assert amount < limit + 0.005 <==> x < n as real + 0.5;
  }
}
