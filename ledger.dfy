/** Arithmetic shared by the resource counters of both games: a guarded debit
    and the floor-based accrual of a tick. */
module Ledger {
  import opened Optional

  /** Debit `amount` from `balance` when it covers it; None otherwise. */
  function TrySpend(balance: int, amount: int): (r: Option<int>)
    ensures r.Some? <==> balance >= amount
    ensures r.Some? ==> r.value >= 0 && r.value + amount == balance
  {
    if balance >= amount then Some(balance - amount) else None
  }

  /** Spending what was just credited restores a non-negative balance. */
  lemma CreditThenSpend(balance: int, amount: int)
    requires balance >= 0
    ensures TrySpend(balance + amount, amount) == Some(balance)
  {
  }

  /** Units produced in `elapsedMs` milliseconds by producers whose levels sum
      to `levels`, when one level yields one unit every `msPerUnit` ms:
      floor(levels * elapsedMs / msPerUnit). */
  function Gain(levels: int, elapsedMs: int, msPerUnit: int): (r: int)
    requires msPerUnit > 0
    ensures r * msPerUnit <= levels * elapsedMs < (r + 1) * msPerUnit
    ensures elapsedMs == 0 ==> r == 0
    ensures levels >= 0 && elapsedMs >= 0 ==> r >= 0
  {
    (levels * elapsedMs) / msPerUnit
  }

  /** Multiplying by a non-negative factor keeps order. */
  lemma {:induction false} MulLe(a: int, b: int, d: nat)
    ensures a <= b ==> a * d <= b * d
  {
    if d > 0 && a <= b {
      MulLe(a, b, d - 1);
      assert a * d == a * (d - 1) + a;
      assert b * d == b * (d - 1) + b;
    }
  }

  /** Floor division by a positive divisor keeps order. */
  lemma DivLe(x: int, y: int, d: int)
    requires d > 0 && x <= y
    ensures x / d <= y / d
  {
    MulLe(y / d + 1, x / d, d);
  }

  /** More elapsed time never yields less. */
  lemma GainMonotone(levels: int, a: int, b: int, msPerUnit: int)
    requires msPerUnit > 0 && levels >= 0 && a <= b
    ensures Gain(levels, a, msPerUnit) <= Gain(levels, b, msPerUnit)
  {
    MulLe(a, b, levels);
    assert levels * a == a * levels && levels * b == b * levels;
    DivLe(levels * a, levels * b, msPerUnit);
  }

  /** Ticking twice loses at most one unit against ticking once over the whole
      interval, and never gains: the floor drops the fractional part each tick. */
  lemma TickSplit(levels: int, a: int, b: int, msPerUnit: int)
    requires msPerUnit > 0
    ensures Gain(levels, a, msPerUnit) + Gain(levels, b, msPerUnit)
      <= Gain(levels, a + b, msPerUnit)
      <= Gain(levels, a, msPerUnit) + Gain(levels, b, msPerUnit) + 1
  {
    var x, y := levels * a, levels * b;
    assert levels * (a + b) == x + y;
    FloorSplit(x, y, msPerUnit);
  }

  /** floor(x/d) + floor(y/d) <= floor((x+y)/d) <= floor(x/d) + floor(y/d) + 1. */
  lemma FloorSplit(x: int, y: int, d: int)
    requires d > 0
    ensures x / d + y / d <= (x + y) / d <= x / d + y / d + 1
  {
    var qx, qy, q := x / d, y / d, (x + y) / d;
    var rx, ry := x % d, y % d;
    assert x == qx * d + rx && y == qy * d + ry;
    assert x + y == (qx + qy) * d + (rx + ry);
    if rx + ry < d {
      DivUnique(x + y, d, qx + qy, rx + ry);
    } else {
      assert x + y == (qx + qy + 1) * d + (rx + ry - d);
      DivUnique(x + y, d, qx + qy + 1, rx + ry - d);
    }
  }

  /** The quotient is determined by any decomposition with a remainder in range. */
  lemma DivUnique(n: int, d: int, q: int, r: int)
    requires d > 0 && 0 <= r < d && n == q * d + r
    ensures n / d == q
  {
    MulLe(n / d + 1, q, d);
    MulLe(q + 1, n / d, d);
  }
}
