/** Powers of two and alignment to them. */
module PowersOfTwo {

  function Pow2(k: nat): (r: nat)
    ensures r >= 1
  {
    if k == 0 then 1 else 2 * Pow2(k - 1)
  }

  lemma Pow2Double(k: nat)
    ensures Pow2(k + 1) == 2 * Pow2(k)
  {
  }

  /** a is a multiple of 2^k: its k lowest bits are zero. */
  predicate Aligned(a: int, k: nat)
    decreases k
  {
    k == 0 || (a % 2 == 0 && Aligned(a / 2, k - 1))
  }

  /** The remainder test of src/kbuddyAllocator.cpp:65 decides alignment. */
  lemma {:induction false} AlignedIsMultiple(a: int, k: nat)
    ensures Aligned(a, k) <==> a % Pow2(k) == 0
    decreases k
  {
    if k > 0 {
      AlignedIsMultiple(a / 2, k - 1);
      RemainderOfDouble(a, Pow2(k - 1));
    }
  }

  lemma RemainderOfDouble(a: int, m: int)
    requires m > 0
    ensures a % (2 * m) == 2 * ((a / 2) % m) + a % 2
  {
    var q, r := (a / 2) / m, (a / 2) % m;
    DivModUnique(a, 2 * m, q, 2 * r + a % 2);
  }

  lemma DivModUnique(a: int, m: int, q: int, r: int)
    requires m > 0 && a == q * m + r && 0 <= r < m
    ensures a / m == q && a % m == r
  {
    var q', r' := a / m, a % m;
    assert a == q' * m + r' && 0 <= r' < m;
    assert (q' - q) * m == r - r';
    if q' - q >= 1 {
      MulMonotone(1, q' - q, m);
    } else if q' - q <= -1 {
      MulMonotone(q' - q, -1, m);
    }
  }

  lemma MulMonotone(x: int, y: int, m: int)
    requires m > 0 && x <= y
    ensures x * m <= y * m
  {
  }

  lemma {:induction false} AlignedSum(a: int, b: int, k: nat)
    requires Aligned(a, k) && Aligned(b, k)
    ensures Aligned(a + b, k) && Aligned(a - b, k)
    decreases k
  {
    if k > 0 {
      AlignedSum(a / 2, b / 2, k - 1);
      assert (a + b) / 2 == a / 2 + b / 2 && (a - b) / 2 == a / 2 - b / 2;
    }
  }

  lemma {:induction false} AlignedDown(a: int, j: nat, k: nat)
    requires k <= j && Aligned(a, j)
    ensures Aligned(a, k)
    decreases k
  {
    if k > 0 {
      AlignedDown(a / 2, j - 1, k - 1);
    }
  }

  lemma {:induction false} Pow2Aligned(j: nat, k: nat)
    requires k <= j
    ensures Aligned(Pow2(j), k)
  {
    if k > 0 {
      Pow2Aligned(j - 1, k - 1);
      Pow2Double(j - 1);
      hide Pow2, Aligned;
      AlignedTwice(Pow2(j - 1), k - 1);
    }
  }

  lemma AlignedTwice(a: int, k: nat)
    requires Aligned(a, k)
    ensures Aligned(2 * a, k + 1)
  {
    var b := 2 * a;
    assert b % 2 == 0 && b / 2 == a;
  }

  /** Two distinct multiples of 2^k are at least 2^k apart. */
  lemma {:induction false} AlignedApart(a: int, b: int, k: nat)
    requires Aligned(a, k) && Aligned(b, k) && a < b
    ensures a + Pow2(k) <= b
    decreases k
  {
    if k > 0 {
      AlignedApart(a / 2, b / 2, k - 1);
    }
  }

  /** Of two neighbouring multiples of 2^k exactly one is a multiple of 2^(k+1). */
  lemma {:induction false} AlignedAlternates(a: int, k: nat)
    requires Aligned(a, k)
    ensures Aligned(a - Pow2(k), k + 1) <==> !Aligned(a, k + 1)
    ensures Aligned(a + Pow2(k), k + 1) <==> !Aligned(a, k + 1)
    decreases k
  {
    if k == 0 {
      assert Aligned(a / 2, 0) && Aligned((a - 1) / 2, 0) && Aligned((a + 1) / 2, 0);
    } else {
      AlignedAlternates(a / 2, k - 1);
      assert (a - Pow2(k)) / 2 == a / 2 - Pow2(k - 1) && (a + Pow2(k)) / 2 == a / 2 + Pow2(k - 1);
    }
  }

  lemma {:induction false} Pow2Monotone(j: nat, k: nat)
    requires k <= j
    ensures Pow2(k) <= Pow2(j)
    ensures k < j ==> 2 * Pow2(k) <= Pow2(j)
    decreases j
  {
    if k < j {
      Pow2Monotone(j - 1, k);
    }
  }

  lemma {:induction false} Pow2Sum(a: nat, b: nat)
    ensures Pow2(a + b) == Pow2(a) * Pow2(b)
    decreases b
  {
    if b > 0 {
      Pow2Sum(a, b - 1);
    }
  }
}
