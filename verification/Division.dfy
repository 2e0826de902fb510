/** Quotients and remainders by a divisor that is not a literal. */
module Division {

  lemma Product(a: int, k: int)
    requires a > 0
    ensures k >= 1 ==> a * k >= a
    ensures k <= -1 ==> a * k <= -a
  {
    if k >= 1 {
      assert a * k == a + a * (k - 1);
    } else if k <= -1 {
      assert a * k == -a + a * (k + 1);
    }
  }

  /** Among numbers with the same quotient pattern only one remainder is small. */
  lemma Remainder(a: nat, q: int, r: int, k: int, t: int)
    requires a > 0 && a * q + r == a * k + t && 0 <= r < a
    ensures 0 <= t ==> r <= t
    ensures 0 <= t < a ==> r == t
  {
    assert a * q - a * k == a * (q - k);
    Product(a, q - k);
    Product(a, k - q);
    assert a * (k - q) == -(a * (q - k));
  }

  lemma ModDown(e: int, d: nat, a: nat)
    requires a > 0
    ensures (e - e % a) % a == 0
    ensures (e - d) % a == 0 ==> d >= e % a
  {
    var q, r := e / a, e % a;
    assert e == a * q + r;
    var k, t := (e - r) / a, (e - r) % a;
    assert e - r == a * k + t;
    Remainder(a, k, t, q, 0);
    if (e - d) % a == 0 {
      var j := (e - d) / a;
      assert e - d == a * j;
      Remainder(a, q, r, j, d);
    }
  }

  lemma DivMod(s: nat, i: nat, r: nat)
    requires r < s
    ensures (s * i + r) / s == i && (s * i + r) % s == r
  {
    var x := s * i + r;
    var q, t := x / s, x % s;
    assert x == s * q + t;
    Remainder(s, i, r, q, t);
    assert s * i == s * q;
    Product(s, i - q);
    Product(s, q - i);
    assert s * (i - q) == 0 && s * (q - i) == 0;
  }

  lemma MulMonotone(s: nat, a: nat, b: nat)
    requires a <= b
    ensures s * a <= s * b
  {
    assert s * b == s * a + s * (b - a);
  }
}
