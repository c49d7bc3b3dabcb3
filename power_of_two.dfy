/** The feature-count test of the sum workaround: `N != 0 and N & (N - 1) == 0`,
    on Python's unbounded non-negative integers, and its meaning. */
module PowerOfTwo {

  /** 2 to the power k. */
  function Pow2(k: nat): (r: nat)
    ensures r >= 1
  {
    if k == 0 then 1 else 2 * Pow2(k - 1)
  }

  /** Reference definition: n is 2^k for some k. */
  ghost predicate IsPowerOfTwo(n: nat) {
    exists k: nat :: Pow2(k) == n
  }

  /** Python's `a & b` on non-negative integers, bit by bit from the least
      significant bit. A common bit can only be set where both operands have it. */
  function BitAnd(a: nat, b: nat): (r: nat)
    ensures r <= a && r <= b
  {
    if a == 0 || b == 0 then 0
    else 2 * BitAnd(a / 2, b / 2) + (if a % 2 == 1 && b % 2 == 1 then 1 else 0)
  }

  /** The guard as written at the call site; `and` short-circuits, so `N - 1` is only
      formed for N >= 1. */
  predicate HasSingleBit(n: nat) {
    n != 0 && BitAnd(n, n - 1) == 0
  }

  lemma {:induction false} BitAndSelf(a: nat)
    ensures BitAnd(a, a) == a
  {
    if a != 0 {
      BitAndSelf(a / 2);
    }
  }

  /** The bit trick decides exactly the powers of two. */
  lemma {:induction false} HasSingleBitIffPowerOfTwo(n: nat)
    ensures HasSingleBit(n) <==> IsPowerOfTwo(n)
  {
    if n == 0 {
      forall k: nat ensures Pow2(k) != 0 { }
    } else if n == 1 {
      assert Pow2(0) == 1;
    } else if n % 2 == 0 {
      HasSingleBitIffPowerOfTwo(n / 2);
      assert n == 2 * (n / 2);
      EvenBitAnd(n / 2);
      EvenPower(n);
    } else {
      OddBitAnd(n);
      OddNotPower(n);
    }
  }

  /** For n = 2m, `n & (n - 1)` is twice `m & (m - 1)`. */
  lemma EvenBitAnd(m: nat)
    requires m >= 1
    ensures BitAnd(2 * m, 2 * m - 1) == 2 * BitAnd(m, m - 1)
  {
    var n := 2 * m;
    assert n / 2 == m && n % 2 == 0;
    assert (n - 1) / 2 == m - 1;
    assert BitAnd(n, n - 1) == 2 * BitAnd(n / 2, (n - 1) / 2) + 0;
  }

  /** An even n is a power of two exactly when n / 2 is. */
  lemma EvenPower(n: nat)
    requires n >= 2 && n % 2 == 0
    ensures IsPowerOfTwo(n) <==> IsPowerOfTwo(n / 2)
  {
    if IsPowerOfTwo(n) {
      var k: nat :| Pow2(k) == n;
      assert k >= 1;
      assert Pow2(k - 1) == n / 2;
    }
    if IsPowerOfTwo(n / 2) {
      var k: nat :| Pow2(k) == n / 2;
      assert Pow2(k + 1) == n;
    }
  }

  /** For odd n, `n & (n - 1)` is n - 1. */
  lemma OddBitAnd(n: nat)
    requires n >= 3 && n % 2 == 1
    ensures BitAnd(n, n - 1) == n - 1
  {
    assert (n - 1) / 2 == n / 2 && (n - 1) % 2 == 0;
    BitAndSelf(n / 2);
  }

  /** No odd number above one is a power of two. */
  lemma OddNotPower(n: nat)
    requires n >= 3 && n % 2 == 1
    ensures !IsPowerOfTwo(n)
  {
    forall k: nat ensures Pow2(k) != n {
      if k > 0 {
        assert Pow2(k) == 2 * Pow2(k - 1);
      }
    }
  }

  /** Every power of two passes the guard. */
  lemma PowersOfTwoPass(k: nat)
    ensures HasSingleBit(Pow2(k))
  {
  }
}
