/** Go's int on the platforms the service is built for: 64 bits, two's complement, wrapping. */
module Int64 {
  const MODULUS: int := 0x1_0000_0000_0000_0000
  const HALF: int := 0x8000_0000_0000_0000

  predicate InRange(x: int) { -HALF <= x < HALF }

  /** The value left of x in 64 bits. */
  function Wrap(x: int): (r: int)
    ensures InRange(r)
    ensures InRange(x) ==> r == x
  {
    (x + HALF) % MODULUS - HALF
  }

  /** Two integers wrap to the same value exactly when they differ by a multiple of 2^64. */
  predicate Congruent(x: int, y: int) {
    (x - y) % MODULUS == 0
  }

  lemma WrapCongruent(x: int)
    ensures Congruent(Wrap(x), x)
  {
    var q := (x + HALF) / MODULUS;
    assert x + HALF == q * MODULUS + (x + HALF) % MODULUS;
    assert Wrap(x) - x == -q * MODULUS;
    MultipleIsZero(-q);
  }

  lemma MultipleIsZero(q: int)
    ensures (q * MODULUS) % MODULUS == 0
  {
  }

  lemma CongruentSum(a: int, b: int, c: int, d: int)
    requires Congruent(a, b) && Congruent(c, d)
    ensures Congruent(a + c, b + d)
  {
    assert a - b == ((a - b) / MODULUS) * MODULUS;
    assert c - d == ((c - d) / MODULUS) * MODULUS;
    assert a + c - (b + d) == ((a - b) / MODULUS + (c - d) / MODULUS) * MODULUS;
    MultipleIsZero((a - b) / MODULUS + (c - d) / MODULUS);
  }

  /** Within the range there is only one representative. */
  lemma CongruentUnique(x: int, y: int)
    requires InRange(x) && InRange(y) && Congruent(x, y)
    ensures x == y
  {
    assert x - y == ((x - y) / MODULUS) * MODULUS;
  }

  lemma WrapEqual(x: int, y: int)
    requires Congruent(x, y)
    ensures Wrap(x) == Wrap(y)
  {
    WrapCongruent(x);
    WrapCongruent(y);
    CongruentSum(Wrap(x), x, x, y);
    assert Congruent(Wrap(x) + x, x + y);
    assert Wrap(x) + x - (x + y) == Wrap(x) - y;
    assert Congruent(y, Wrap(y)) by {
      assert Wrap(y) - y == ((Wrap(y) - y) / MODULUS) * MODULUS;
      assert y - Wrap(y) == -((Wrap(y) - y) / MODULUS) * MODULUS;
      MultipleIsZero(-((Wrap(y) - y) / MODULUS));
    }
    CongruentSum(Wrap(x), y, y, Wrap(y));
    CongruentUnique(Wrap(x), Wrap(y));
  }
}
