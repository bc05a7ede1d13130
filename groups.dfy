/**
 * The group-theory backend the factory talks to (GAP through Sage), seen as
 * a record of uninterpreted functions, and the integer arithmetic the
 * factory itself performs on group orders (primality, prime powers,
 * smallest prime factor).
 */
module Groups {
  import opened Common
  import opened Keys

  /** A handle on a group object living in the backend. */
  datatype Group = Group(handle: nat)

  /**
   * What the factory asks of the backend. Each field answers one kind of
   * backend call; the model knows nothing else about them.
   */
  datatype Backend = Backend(
    order: Group -> int,                       // G.Order()
    smallGroup: (int, int) -> Group,           // SmallGroup(q, n)
    numberSmallGroups: int -> Option<nat>,     // NumberSmallGroups(q); None: library does not cover q
    idGroup: Group -> Option<(int, int)>,      // G.IdGroup(); None: raised ValueError
    canonicallyIsomorphic: (Group, Group) -> bool, // canonicalIsomorphism(G, H) != Failure
    admissible: Group -> Option<Group>,        // admissibleGroup(G); None: Failure
    isPermGroup: Group -> bool,                // G.IsPermGroup()
    generatorsText: Group -> string,           // G.GeneratorsOfGroup().String()
    permGeneratorTexts: Group -> seq<string>,  // generators of G.asPermgroup(), as strings
    name: Group -> Option<string>,             // G.Name() when G.HasName()
    isSubgroup: (Group, Group) -> bool,        // IsSubgroup(G, U): U is contained in G
    index: (Group, Group) -> int,              // Index(G, U)
    groupOfKey: GroupKey -> Group,             // SmallGroup(q, n), or libgap.eval of the key text
    keysIsomorphic: (GroupKey, GroupKey) -> bool // a canonical isomorphism joins the groups of two keys
  )

  predicate Divides(d: int, n: int)
    requires d != 0
  {
    n % d == 0
  }

  /** `Integer(n).is_prime()`. */
  predicate IsPrime(n: int)
  {
    n >= 2 && forall d :: 2 <= d < n ==> n % d != 0
  }

  /** The least divisor of `n` that is at least `from`. */
  function LeastDivisorFrom(n: int, from: int): (d: int)
    requires 2 <= from <= n
    requires forall e :: 2 <= e < from ==> n % e != 0
    ensures from <= d <= n && n % d == 0
    ensures forall e :: 2 <= e < d ==> n % e != 0
    decreases n - from
  {
    if n % from == 0 then from
    else
      assert from < n by {
        assert n % n == 0;
      }
      LeastDivisorFrom(n, from + 1)
  }

  /** `q.factor()[0][0]`: the smallest prime factor of `q`. */
  function SmallestPrimeFactor(q: int): (p: int)
    requires q >= 2
    ensures 2 <= p <= q && q % p == 0
    ensures IsPrime(p)
    ensures forall e :: 2 <= e < p ==> q % e != 0
  {
    var p := LeastDivisorFrom(q, 2);
    forall e | 2 <= e < p
      ensures p % e != 0
    {
      if p % e == 0 {
        DividesTransitive(e, p, q);
      }
    }
    p
  }

  lemma MulSign(a: int, d: int)
    requires a >= 1
    ensures d >= 1 ==> a * d >= a
    ensures d <= -1 ==> a * d <= -a
  {
  }

  /** A multiple of `a` leaves no remainder. */
  lemma MultipleMod(a: int, k: int)
    requires a >= 1
    ensures (a * k) % a == 0
  {
    var r := (a * k) % a;
    var q := (a * k) / a;
    assert a * k == a * q + r;
    var d := k - q;
    assert a * d == r by {
      assert a * d == a * k - a * q;
    }
    MulSign(a, d);
  }

  lemma DividesTransitive(a: int, b: int, c: int)
    requires a >= 1 && b >= 1 && b % a == 0 && c % b == 0
    ensures c % a == 0
  {
    var x := b / a;
    var y := c / b;
    assert b == a * x;
    assert c == b * y;
    assert c == (a * x) * y;
    assert c == a * (x * y);
    MultipleMod(a, x * y);
  }

  /** `q` is 1 or a power of `p`. */
  predicate IsPowerOf(q: int, p: int)
    requires q >= 1 && p >= 2
    decreases q
  {
    q == 1 || (q % p == 0 && IsPowerOf(q / p, p))
  }

  function Pow(b: int, e: nat): int
  {
    if e == 0 then 1 else b * Pow(b, e - 1)
  }

  /** `Integer(q).is_prime_power()`: a positive power of a prime. */
  predicate IsPrimePower(q: int)
  {
    q >= 2 && IsPowerOf(q, SmallestPrimeFactor(q))
  }

  /** A number that `IsPowerOf` accepts is an actual power. */
  lemma {:induction false} PowerOfIsPow(q: int, p: int)
    requires q >= 1 && p >= 2 && IsPowerOf(q, p)
    ensures exists k: nat :: q == Pow(p, k)
    decreases q
  {
    if q == 1 {
      assert q == Pow(p, 0);
    } else {
      PowerOfIsPow(q / p, p);
      var k: nat :| q / p == Pow(p, k);
      assert q == p * (q / p);
      assert q == Pow(p, k + 1);
    }
  }

  /** A prime power is a positive power of its smallest prime factor. */
  lemma PrimePowerShape(q: int)
    requires IsPrimePower(q)
    ensures IsPrime(SmallestPrimeFactor(q))
    ensures exists k: nat :: k >= 1 && q == Pow(SmallestPrimeFactor(q), k)
  {
    var p := SmallestPrimeFactor(q);
    PowerOfIsPow(q, p);
    var k: nat :| q == Pow(p, k);
    assert k != 0;
  }
}
