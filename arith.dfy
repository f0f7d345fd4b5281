/** Facts about Euclidean division and remainder by a positive divisor. */
module Arith {

  lemma MulAtLeast(p: int, d: int)
    requires p >= 1 && d >= 0
    ensures p * d >= d
  {
    assert p * d == (p - 1) * d + d;
    assert (p - 1) * d >= 0;
  }

  /** Division is unique: `q * d + r` with `0 <= r < d` divides as `q`, remainder `r`. */
  lemma DivModOfSum(q: int, d: int, r: int)
    requires d > 0 && 0 <= r < d
    ensures (q * d + r) / d == q && (q * d + r) % d == r
  {
    var x := q * d + r;
    var q', r' := x / d, x % d;
    assert x == q' * d + r';
    assert (q - q') * d == r' - r by {
      assert (q - q') * d == q * d - q' * d;
    }
    if q - q' >= 1 {
      MulAtLeast(q - q', d);
    } else if q' - q >= 1 {
      MulAtLeast(q' - q, d);
    }
  }

  lemma MultipleDivMod(k: int, d: int)
    requires d > 0
    ensures (k * d) / d == k && (k * d) % d == 0
  {
    DivModOfSum(k, d, 0);
  }

  /** Dividing by `a` and then by `b` is dividing by `a * b`. */
  lemma NestedDiv(x: int, a: int, b: int)
    requires a > 0 && b > 0
    ensures (x / a) / b == x / (a * b)
  {
    var q, r := x / a, x % a;
    var q2, r2 := q / b, q % b;
    assert x == q2 * (a * b) + (r2 * a + r) by {
      assert x == q * a + r;
      assert q == q2 * b + r2;
      assert q * a == q2 * b * a + r2 * a;
    }
    assert r2 * a + r < a * b by {
      assert r2 * a <= (b - 1) * a by {
        if r2 < b - 1 {
          MulAtLeast(b - 1 - r2, a);
          assert (b - 1) * a - r2 * a == (b - 1 - r2) * a;
        }
      }
      assert (b - 1) * a == a * b - a;
    }
    assert 0 <= r2 * a by {
      if r2 > 0 { MulAtLeast(r2, a); }
    }
    DivModOfSum(q2, a * b, r2 * a + r);
  }

  /** Taking the remainder by `a * b` and then by `a` is taking it by `a`. */
  lemma NestedMod(x: int, a: int, b: int)
    requires a > 0 && b > 0
    ensures (x % (a * b)) % a == x % a
  {
    var q, r := x / (a * b), x % (a * b);
    assert x == (q * b) * a + r by {
      assert x == q * (a * b) + r;
    }
    var q', r' := r / a, r % a;
    assert x == (q * b + q') * a + r' by {
      assert r == q' * a + r';
    }
    DivModOfSum(q * b + q', a, r');
  }
}
