/** Small shared vocabulary: optional values, real arithmetic and sums over maps. */
module Prelude {

  datatype Option<+T> = None | Some(value: T) {
    function GetOr(default: T): T {
      match this
      case Some(v) => v
      case None => default
    }
  }

  function Max(a: real, b: real): real {
    if a >= b then a else b
  }

  function Min(a: real, b: real): real {
    if a <= b then a else b
  }

  function Abs(a: real): real {
    if a >= 0.0 then a else -a
  }

  /** `amount * (pct / 100.0)` */
  function PercentOf(amount: real, pct: real): real {
    amount * (pct / 100.0)
  }

  function Times(a: real, b: real): real {
    a * b
  }

  function Quotient(a: real, b: real): real
    requires b != 0.0
  {
    a / b
  }

  lemma QuotientTimes(a: real, b: real)
    requires b != 0.0
    ensures Times(Quotient(a, b), b) == a
    ensures b > 0.0 && a >= 0.0 ==> Quotient(a, b) >= 0.0
  {
  }

  lemma PercentSign(amount: real, pct: real)
    requires amount >= 0.0 && pct >= 0.0
    ensures PercentOf(amount, pct) >= 0.0
  {
    assert pct / 100.0 >= 0.0;
  }

  /** The worth of a number of shares at a price. */
  function Worth(quantity: int, price: real): real {
    quantity as real * price
  }

  lemma WorthAdds(a: int, b: int, price: real)
    ensures Worth(a + b, price) == Worth(a, price) + Worth(b, price)
  {
  }

  lemma WorthMonotone(a: int, b: int, price: real)
    requires a <= b && price >= 0.0
    ensures Worth(a, price) <= Worth(b, price)
  {
    assert Worth(b, price) - Worth(a, price) == (b - a) as real * price;
  }

  /** `int(x)` of the source: truncation toward zero. */
  function Trunc(x: real): int {
    if x >= 0.0 then x.Floor else -((-x).Floor)
  }

  /** The largest whole number not above an amount, but at least one and at most a given number. */
  predicate IsWholePart(n: int, amount: real, most: int) {
    && 1 <= n <= most
    && (n > 1 ==> n as real <= amount)
    && (n < most ==> amount < (n + 1) as real)
  }

  /** The largest number of shares that an amount pays for. */
  predicate IsLargest(n: int, price: real, amount: real) {
    n as real * price <= amount < (n + 1) as real * price
  }

  /** Truncating and clamping an amount gives its whole part. */
  lemma WholePart(amount: real, most: int)
    requires most >= 1
    ensures var atLeastOne := if Trunc(amount) >= 1 then Trunc(amount) else 1;
            IsWholePart(if atLeastOne <= most then atLeastOne else most, amount, most)
  {
  }

  /** Flooring a quotient gives the largest count of units whose worth fits in the amount. */
  lemma {:induction false} FloorQuotientFits(amount: real, price: real, n: int)
    requires price > 0.0
    ensures n <= (amount / price).Floor <==> Worth(n, price) <= amount
    ensures n <= Quotient(amount, price).Floor <==> Worth(n, price) <= amount
  {
    var q := amount / price;
    assert q * price == amount;
    if n as real <= q {
      assert (q - n as real) * price >= 0.0;
    } else {
      assert (n as real - q) * price > 0.0;
    }
  }
}

/** Sums over the values of a map, independent of any order of its keys. */
module MapSums {

  ghost function SumValues<K>(m: map<K, real>): (total: real)
    decreases |m|
  {
    if m == map[] then 0.0
    else
      var k :| k in m;
      assert |m - {k}| < |m| by { SmallerWithout(m, k); }
      m[k] + SumValues(m - {k})
  }

  lemma SmallerWithout<K>(m: map<K, real>, k: K)
    requires k in m
    ensures |m - {k}| == |m| - 1
  {
    assert (m - {k}).Keys == m.Keys - {k};
  }

  /** Any key may be split off first. */
  lemma {:induction false} SplitOff<K>(m: map<K, real>, k: K)
    requires k in m
    ensures SumValues(m) == m[k] + SumValues(m - {k})
    decreases |m|
  {
    var j :| j in m && SumValues(m) == m[j] + SumValues(m - {j});
    if j != k {
      SmallerWithout(m, j);
      SmallerWithout(m, k);
      SplitOff(m - {j}, k);
      SplitOff(m - {k}, j);
      assert m - {j} - {k} == m - {k} - {j};
    }
  }

  /** Updating one key changes the sum by the difference at that key. */
  lemma {:induction false} UpdateSum<K>(m: map<K, real>, k: K, v: real)
    ensures SumValues(m[k := v]) == SumValues(m) + v - (if k in m then m[k] else 0.0)
  {
    SplitOff(m[k := v], k);
    assert m[k := v] - {k} == m - {k};
    if k in m {
      SplitOff(m, k);
    } else {
      assert m - {k} == m;
    }
  }
}
