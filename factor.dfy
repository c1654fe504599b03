/**
 * `factor` from brio/misc/sta.py: split a non-negative integer into a pair of
 * factors that is as even as possible, by searching downwards from one more
 * than its integer square root.
 */
module Factor {

  import opened Wrappers

  predicate Divides(d: int, r: int)
    requires d >= 1
  {
    r % d == 0
  }

  /** Integer square root: int(sqrt(n)) for a non-negative n. */
  function ISqrt(n: nat): (s: nat)
    ensures s * s <= n < (s + 1) * (s + 1)
  {
    if n == 0 then 0
    else
      var t := ISqrt(n - 1);
      if (t + 1) * (t + 1) <= n then t + 1 else t
  }

  /** The integer square root is the only s with s*s <= n < (s+1)*(s+1). */
  lemma {:induction false} ISqrtUnique(n: nat, s: nat)
    requires s * s <= n < (s + 1) * (s + 1)
    ensures ISqrt(n) == s
  {
    var t := ISqrt(n);
    if t < s {
      MonotoneSquare(t + 1, s);
    } else if s < t {
      MonotoneSquare(s + 1, t);
    }
  }

  lemma MonotoneSquare(a: nat, b: nat)
    requires a <= b
    ensures a * a <= b * b
  {
    assert a * a <= a * b <= b * b;
  }

  /** Every a with a*a <= n is at most the integer square root of n. */
  lemma {:induction false} BelowISqrt(n: nat, a: nat)
    requires a * a <= n
    ensures a <= ISqrt(n)
  {
    var s := ISqrt(n);
    if a > s {
      MonotoneSquare(s + 1, a);
    }
  }

  /**
   * The loop `for q in xrange(qMax, 0, -1): if r % q == 0: return q`, as a
   * recursion on q: the largest divisor of r that does not exceed q.
   */
  function SearchDown(r: nat, q: nat): (d: nat)
    requires q >= 1
    ensures 1 <= d <= q && Divides(d, r)
    ensures forall e :: d < e <= q ==> !Divides(e, r)
    decreases q
  {
    if r % q == 0 then q else SearchDown(r, q - 1)
  }

  /**
   * factor(r). A negative r has no real square root, so the Python code fails
   * there (None); every other r gets a pair (q, r / q) with q the largest
   * divisor of r not above int(sqrt(r)) + 1.
   */
  function Factor(r: int): (res: Option<(int, int)>)
    ensures res.None? <==> r < 0
    ensures res.Some? ==>
      var (q, p) := res.value;
      1 <= q <= ISqrt(r) + 1 && Divides(q, r) && p == r / q && q * p == r &&
      forall e :: q < e <= ISqrt(r) + 1 ==> !Divides(e, r)
  {
    if r < 0 then None
    else
      var q := SearchDown(r, ISqrt(r) + 1);
      DivExact(r, q);
      Some((q, r / q))
  }

  lemma DivExact(r: int, q: int)
    requires q >= 1 && r % q == 0
    ensures q * (r / q) == r
  {
  }

  /**
   * The pair is as even as possible: no divisor a of r with a*a <= r exceeds
   * the first component.
   */
  lemma FactorMostEven(r: nat, a: nat)
    requires a >= 1 && Divides(a, r) && a * a <= r
    ensures Factor(r).Some? && a <= Factor(r).value.0
  {
    BelowISqrt(r, a);
  }

  /** A perfect square k*k is factored as (k, k). */
  lemma FactorPerfectSquare(k: nat)
    requires k >= 1
    ensures Factor(k * k) == Some((k, k))
  {
    var r := k * k;
    ISqrtUnique(r, k);
    SquareModSuccessor(k);
    ModUnique(r, k, k, 0);
    assert SearchDown(r, k + 1) == SearchDown(r, k) == k;
    assert Factor(r) == Some((SearchDown(r, k + 1), r / SearchDown(r, k + 1)));
  }

  /** k*k leaves remainder 1 when divided by k + 1. */
  lemma SquareModSuccessor(k: nat)
    requires k >= 1
    ensures (k * k) % (k + 1) == 1
  {
    var q := k - 1;
    assert k * k == (k + 1) * q + 1;
    ModUnique(k * k, k + 1, q, 1);
  }

  lemma ModUnique(a: int, b: int, q: int, m: int)
    requires b >= 1 && a == b * q + m && 0 <= m < b
    ensures a % b == m && a / b == q
  {
    var q', m' := a / b, a % b;
    assert a == b * q' + m';
    var d := q - q';
    assert b * d == m' - m by {
      assert b * d == b * q - b * q';
    }
    if d >= 1 {
      assert b * d >= b by { MulAtLeast(b, d); }
    } else if d <= -1 {
      assert b * -d >= b by { MulAtLeast(b, -d); }
    }
  }

  lemma MulAtLeast(b: int, d: int)
    requires b >= 1 && d >= 1
    ensures b * d >= b
  {
    assert b * d == b * (d - 1) + b;
  }

  /** The first component is not always the smaller one: factor(2) == (2, 1). */
  lemma FactorTwo()
    ensures Factor(2) == Some((2, 1))
  {
    ISqrtUnique(2, 1);
    assert SearchDown(2, 2) == 2;
  }

  /** factor(0) finds q = 1 straight away. */
  lemma FactorZero()
    ensures Factor(0) == Some((1, 0))
  {
  }
}
