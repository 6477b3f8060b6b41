/** Facts about Euclidean division that the solver does not find unaided
    when the divisor is a variable, and linear definitions of the product and
    the remainder for the places where the model is reasoned about at length. */
module Arith {

  /** a * b, as repeated addition. A formula that mentions `Times` instead of
      `*` stays within linear arithmetic; `TimesIsProduct` connects the two. */
  function Times(a: int, b: int): int
    decreases if b < 0 then -b else b
  {
    if b == 0 then 0
    else if b > 0 then Times(a, b - 1) + a
    else Times(a, b + 1) - a
  }

  lemma {:induction false} TimesIsProduct(a: int, b: int)
    ensures Times(a, b) == a * b
    decreases if b < 0 then -b else b
  {
    if b > 0 {
      TimesIsProduct(a, b - 1);
      assert a * (b - 1) + a == a * b;
    } else if b < 0 {
      TimesIsProduct(a, b + 1);
      assert a * (b + 1) - a == a * b;
    }
  }

  /** x mod m, as repeated subtraction; `RemIsMod` connects it to `%`. */
  function Rem(x: nat, m: nat): (r: nat)
    requires m > 0
    ensures r < m
    decreases x
  {
    if x < m then x else Rem(x - m, m)
  }

  lemma SmallMultiple(c: int, m: int)
    requires m > 0 && -m < c * m < m
    ensures c == 0
  {
  }

  /** Quotient and remainder are unique. */
  lemma ModUnique(y: int, k: int, r: int, m: int)
    requires m > 0 && 0 <= r < m && y == k * m + r
    ensures y % m == r && y / m == k
  {
    var k', r' := y / m, y % m;
    assert (k - k') * m == r' - r;
    SmallMultiple(k - k', m);
  }

  /** Adding a multiple of the modulus does not change the remainder. */
  lemma AddMultiple(x: int, d: int, m: int)
    requires m > 0
    ensures (x + d * m) % m == x % m
  {
    var q, r := x / m, x % m;
    assert x + d * m == (q + d) * m + r;
    ModUnique(x + d * m, q + d, r, m);
  }

  /** Reducing a summand first does not change the remainder of a sum. */
  lemma ModAdd(x: int, y: int, m: int)
    requires m > 0
    ensures (x % m + y) % m == (x + y) % m
  {
    var q := x / m;
    assert x % m + y == (x + y) + (-q) * m;
    AddMultiple(x + y, -q, m);
  }

  lemma {:induction false} RemIsMod(x: nat, m: nat)
    requires m > 0
    ensures Rem(x, m) == x % m
    decreases x
  {
    if x < m {
      ModUnique(x, 0, x, m);
    } else {
      RemIsMod(x - m, m);
      AddMultiple(x - m, 1, m);
    }
  }

  /** Floor division of naturals brackets the dividend. */
  lemma DivBounds(x: nat, y: nat)
    requires y > 0
    ensures (x / y) * y <= x < (x / y + 1) * y
    ensures x / y > 0 ==> x > 0
  {
  }

  /** The product of two non-zero integers is non-zero, with the sign rule. */
  lemma ProductSign(a: int, b: int)
    requires a != 0 && b != 0
    ensures a * b != 0 && (a * b > 0 <==> (a > 0) == (b > 0))
  {
  }

  /** A product of two integers of one sign is at least as far from zero as
      the second factor. */
  lemma ProductAtLeast(a: int, b: int)
    ensures a > 0 && b >= 0 ==> a * b >= b
    ensures a < 0 && b <= 0 ==> a * b >= -b
  {
    if a > 0 && b >= 0 {
      assert a * b == (a - 1) * b + b;
    } else if a < 0 && b <= 0 {
      assert a * b == (-a - 1) * (-b) - b;
    }
  }
}
