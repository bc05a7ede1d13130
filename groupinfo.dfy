/**
 * The two computations of the group information tool: the p-adic
 * valuation of the number of nontips (how the group order is printed as
 * p^nu) and the name printed for the chosen monomial ordering.
 */
module GroupInfo {
  import opened Groups

  /**
   * Reference definition: the largest exponent of `p` dividing the non-zero
   * `n`. The C test `m % p == 0` truncates toward zero and Dafny's `%` is
   * Euclidean, but the two agree on whether the remainder is zero, and the C
   * quotient is only taken when the division is exact.
   */
  function Val(p: int, n: int): (nu: nat)
    requires p >= 2 && n != 0
    decreases if n < 0 then -n else n
  {
    if n % p == 0 then
      QuotientSmaller(p, n);
      1 + Val(p, n / p)
    else 0
  }

  /** An exact division by `p` makes a non-zero number strictly smaller in size. */
  lemma QuotientSmaller(p: int, n: int)
    requires p >= 2 && n != 0 && n % p == 0
    ensures n / p != 0
    ensures (if n / p < 0 then -(n / p) else n / p) < (if n < 0 then -n else n)
  {
    var k := n / p;
    assert n == p * k;
    assert k != 0;
    if k > 0 {
      MulSign(k, p - 1);
      assert p * k == k * (p - 1) + k;
    } else {
      MulSign(-k, p - 1);
      assert p * k == -((-k) * (p - 1) + (-k));
    }
  }

  /**
   * `valuation(p, n)`: divide by `p` while it divides, counting the steps.
   * The loop runs forever for `n == 0` (every power of `p` divides 0), hence
   * the precondition.
   */
  method Valuation(p: int, n: int) returns (nu: nat)
    requires p >= 2 && n != 0
    ensures nu == Val(p, n)
    ensures Pow(p, nu) >= 1 && n % Pow(p, nu) == 0
    ensures Pow(p, nu + 1) >= 1 && n % Pow(p, nu + 1) != 0
  {
    nu := 0;
    var m := n;
    while m % p == 0
      invariant m != 0
      invariant n == Pow(p, nu) * m
      invariant Val(p, n) == nu + Val(p, m)
      decreases if m < 0 then -m else m
    {
      QuotientSmaller(p, m);
      var k := m / p;
      assert m == p * k;
      assert Pow(p, nu) * m == Pow(p, nu + 1) * k by {
        MulAssoc(Pow(p, nu), p, k);
      }
      m := k;
      nu := nu + 1;
    }
    ValuationDivides(p, n, nu, m);
  }

  lemma MulAssoc(a: int, b: int, c: int)
    ensures a * (b * c) == (a * b) * c
    ensures a * b == b * a
  {
  }

  /** Once `p` no longer divides the cofactor, `p^nu` divides `n` and `p^(nu+1)` does not. */
  lemma ValuationDivides(p: int, n: int, nu: nat, m: int)
    requires p >= 2 && m % p != 0 && n == Pow(p, nu) * m
    ensures Pow(p, nu) >= 1 && n % Pow(p, nu) == 0
    ensures Pow(p, nu + 1) >= 1 && n % Pow(p, nu + 1) != 0
  {
    PowPositive(p, nu);
    PowPositive(p, nu + 1);
    assert n == m * Pow(p, nu);
    MultipleMod(Pow(p, nu), m);
    if n % Pow(p, nu + 1) == 0 {
      var c := n / Pow(p, nu + 1);
      assert n == Pow(p, nu + 1) * c;
      assert Pow(p, nu) * m == Pow(p, nu) * (p * c) by {
        MulAssoc(Pow(p, nu), p, c);
      }
      CancelLeft(Pow(p, nu), m, p * c);
      assert m == c * p;
      MultipleMod(p, c);
      assert false;
    }
  }

  lemma PowPositive(p: int, e: nat)
    requires p >= 2
    ensures Pow(p, e) >= 1
  {
    if e > 0 {
      PowPositive(p, e - 1);
      MulSign(Pow(p, e - 1), p);
    }
  }

  lemma CancelLeft(a: int, x: int, y: int)
    requires a >= 1 && a * x == a * y
    ensures x == y
  {
    if x < y {
      MulSign(a, y - x);
    } else if x > y {
      MulSign(a, x - y);
    }
  }

  /** A number `p` does not divide has valuation 0. */
  lemma ValZero(p: int, n: int)
    requires p >= 2 && n != 0 && n % p != 0
    ensures Val(p, n) == 0
  {
  }

  /** Multiplying by `p` raises the valuation by exactly one. */
  lemma ValMul(p: int, m: int)
    requires p >= 2 && m != 0
    ensures p * m != 0
    ensures Val(p, p * m) == Val(p, m) + 1
  {
    MulSign(p, if m > 0 then m else -m);
    assert p * m == m * p;
    MultipleMod(p, m);
    assert (p * m) / p == m by {
      DivExact(p, m);
    }
  }

  lemma DivExact(p: int, m: int)
    requires p >= 1
    ensures (p * m) / p == m
  {
    var q := (p * m) / p;
    var r := (p * m) % p;
    MultipleMod(p, m);
    assert p * m == p * q + r;
    assert p * m == p * q;
    CancelLeft(p, m, q);
  }

  /** The name printed for the ordering letter of the group record. */
  function OrderingName(ordering: char): (name: string)
    ensures ordering == 'R' ==> name == "Reverse length lexicographical"
    ensures ordering == 'L' ==> name == "Length lexicographical"
    ensures ordering != 'R' && ordering != 'L' ==> name == "Jennings"
  {
    if ordering == 'R' then "Reverse length lexicographical"
    else if ordering == 'L' then "Length lexicographical"
    else "Jennings"
  }
}
