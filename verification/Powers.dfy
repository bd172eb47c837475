// Powers of two, and the two counting loops of the allocator that compute with them.
module Powers {

  /** 2^n. */
  function Pow2(n: nat): (r: nat)
    ensures 1 <= r
  {
    if n == 0 then 1 else 2 * Pow2(n - 1)
  }

  lemma {:induction false} Pow2Add(m: nat, n: nat)
    ensures Pow2(m + n) == Pow2(m) * Pow2(n)
  {
    if m == 0 {
    } else {
      Pow2Add(m - 1, n);
      assert Pow2(m + n) == 2 * Pow2(m - 1 + n);
      assert 2 * (Pow2(m - 1) * Pow2(n)) == (2 * Pow2(m - 1)) * Pow2(n);
    }
  }

  lemma {:induction false} Pow2Monotone(m: nat, n: nat)
    requires m <= n
    ensures Pow2(m) <= Pow2(n)
  {
    if m == n {
    } else {
      Pow2Monotone(m, n - 1);
    }
  }

  lemma {:induction false} Pow2Strict(m: nat, n: nat)
    requires m < n
    ensures 2 * Pow2(m) <= Pow2(n)
  {
    Pow2Monotone(m + 1, n);
  }

  const MIN_BLK_SIZE: nat := 32
  const MIN_BLK_SIZE_LOG2: nat := 5

  /** The loop `POWER2`.  No wrap-around: the kernel only calls it with powers below 32. */
  method Power2(power: nat) returns (val: nat)
    ensures val == Pow2(power)
  {
    val := 1;
    for i := 0 to power
      invariant val == Pow2(i)
    {
      val := val * 2;
    }
  }

  lemma Pow2At31()
    ensures Pow2(31) == 0x8000_0000
  {
    assert Pow2(8) == 256;
    Pow2Add(8, 8);
    Pow2Add(16, 8);
    Pow2Add(24, 7);
    assert Pow2(7) == 128;
  }

  /** `p` is the least exponent, not below that of the smallest block, whose power reaches `val`. */
  ghost predicate LeastExponent(val: nat, p: nat) {
    && MIN_BLK_SIZE_LOG2 <= p
    && val <= Pow2(p)
    && (p == MIN_BLK_SIZE_LOG2 || Pow2(p - 1) < val)
  }

  /** The least such exponent. */
  function Exponent(val: nat, p: nat := MIN_BLK_SIZE_LOG2): (r: nat)
    requires MIN_BLK_SIZE_LOG2 <= p && (p == MIN_BLK_SIZE_LOG2 || Pow2(p - 1) < val)
    ensures LeastExponent(val, r)
    decreases if Pow2(p) < val then val - Pow2(p) else 0
  {
    if val <= Pow2(p) then p else Exponent(val, p + 1)
  }

  /** The loop `LOG2`.  Beyond 2^31 the 32-bit `curr_val` of the source wraps to 0 and its loop
      does not end; the kernel calls it with sizes that a pool can hold. */
  method Log2(val: nat) returns (power: nat)
    requires val <= 0x8000_0000
    ensures LeastExponent(val, power) && power == Exponent(val)
    ensures power <= 31
  {
    power := MIN_BLK_SIZE_LOG2;
    var currVal := MIN_BLK_SIZE;
    assert Pow2(5) == 32;
    Pow2At31();
    while currVal < val
      invariant MIN_BLK_SIZE_LOG2 <= power <= 31
      invariant currVal == Pow2(power)
      invariant power == MIN_BLK_SIZE_LOG2 || Pow2(power - 1) < val
      decreases 31 - power
    {
      currVal := currVal * 2;
      power := power + 1;
    }
    LeastExponentUnique(val, power, Exponent(val));
  }

  /** At most one exponent qualifies, so `Log2` computes a function of its argument. */
  lemma LeastExponentUnique(val: nat, p: nat, q: nat)
    requires LeastExponent(val, p) && LeastExponent(val, q)
    ensures p == q
  {
    if p < q {
      Pow2Monotone(p, q - 1);
    } else if q < p {
      Pow2Monotone(q, p - 1);
    }
  }

  // ---------------------------------------------------------------- division by a variable

  /** Unsigned division. */
  function Quotient(a: nat, z: nat): nat
    requires z > 0
  {
    a / z
  }

  lemma DivMod(a: int, z: int)
    requires z > 0
    ensures a == z * (a / z) + a % z && 0 <= a % z < z
  {
  }

  lemma MulMonotone(x: int, y: int, z: nat)
    requires x <= y
    ensures x * z <= y * z
  {
  }

  lemma MulDistributes(x: int, y: int, z: int)
    ensures (x + y) * z == x * z + y * z
  {
  }

  lemma DivUnique(a: int, z: int, q: int, r: int)
    requires z > 0 && a == q * z + r && 0 <= r < z
    ensures a / z == q && a % z == r
  {
    DivMod(a, z);
    var p, s := a / z, a % z;
    assert a == z * p + s;
    assert z * p == p * z;
    MulDistributes(q - p, p, z);
    MulDistributes(p - q, q, z);
    if q > p {
      MulMonotone(1, q - p, z);
    } else if q < p {
      MulMonotone(1, p - q, z);
    }
  }
}
