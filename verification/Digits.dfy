/** Base-`c` positional notation, as far as the summary tree needs it. */
module Digits {

  /** `n` with its `i` lowest base-`c` digits removed. */
  function High(n: nat, i: nat, c: nat): nat
    requires c >= 2
  {
    if i == 0 then n else High(n, i - 1, c) / c
  }

  /** Digit `i` of `n` in base `c`, counting from the lowest. */
  function Digit(n: nat, i: nat, c: nat): nat
    requires c >= 2
  {
    High(n, i, c) % c
  }

  function DigitSum(n: nat, c: nat): nat
    requires c >= 2
  {
    if n == 0 then 0 else n % c + DigitSum(n / c, c)
  }

  /** n/c + n/c^2 + ...: how often counting from 0 to `n` carries. */
  function Carries(n: nat, c: nat): nat
    requires c >= 2
  {
    if n == 0 then 0 else n / c + Carries(n / c, c)
  }

  function Power(c: nat, k: nat): nat {
    if k == 0 then 1 else c * Power(c, k - 1)
  }

  /** Legendre's identity: the carries are what the digits are short of `n`. */
  lemma {:induction false} CarriesAndDigitSum(n: nat, c: nat)
    requires c >= 2
    ensures (c - 1) * Carries(n, c) == n - DigitSum(n, c)
  {
    if n > 0 {
      var q, r := LowestDigitOff(n, c);
      hide Carries, DigitSum;
      CarriesAndDigitSum(q, c);
      CarryStep(n, q, r, c, Carries(q, c), DigitSum(q, c));
    }
  }

  lemma LowestDigitOff(n: nat, c: nat) returns (q: nat, r: nat)
    requires c >= 2 && n > 0
    ensures n == c * q + r && q < n
    ensures Carries(n, c) == q + Carries(q, c) && DigitSum(n, c) == r + DigitSum(q, c)
  {
    q, r := n / c, n % c;
    assert Carries(n, c) == q + Carries(q, c) && DigitSum(n, c) == r + DigitSum(q, c);
    hide Carries, DigitSum;
    DivisionSplits(n, c);
    QuotientIsSmaller(n, q, r, c);
  }

  lemma DivisionSplits(n: nat, c: nat)
    requires c >= 1
    ensures n == c * (n / c) + n % c
  {
  }

  lemma QuotientIsSmaller(n: nat, q: nat, r: nat, c: nat)
    requires c >= 2 && n > 0 && n == c * q + r
    ensures q < n
  {
    Distribute(q, 2, c - 2);
  }

  lemma CarryStep(n: nat, q: nat, r: nat, c: nat, carries: nat, digits: nat)
    requires n == c * q + r && (c - 1) * carries == q - digits
    ensures (c - 1) * (q + carries) == n - (r + digits)
  {
    Distribute(c - 1, q, carries);
    Distribute(q, c, -1);
  }

  lemma Distribute(a: int, x: int, y: int)
    ensures a * (x + y) == a * x + a * y
  {
  }

  /** A nonzero multiple of `c` is at least `c` away from zero. */
  lemma MultipleIsFar(c: int, d: int)
    requires c >= 0
    ensures d >= 1 ==> c * d >= c
    ensures d <= -1 ==> c * d <= -c
  {
    if d >= 1 {
      Distribute(c, d - 1, 1);
    } else {
      Distribute(c, d + 1, -1);
    }
  }

  lemma DivideUniquely(n: nat, q: nat, r: nat, c: nat)
    requires c >= 1 && n == r + c * q && r < c
    ensures n / c == q && n % c == r
  {
    assert n == c * (n / c) + n % c;
    Distribute(c, q, -(n / c));
    MultipleIsFar(c, q - n / c);
  }

  lemma CarriesUnfold(n: nat, q: nat, r: nat, c: nat)
    requires c >= 2 && n > 0 && n == r + c * q && r < c
    ensures Carries(n, c) == q + Carries(q, c)
  {
    DivideUniquely(n, q, r, c);
  }

  lemma QuotientAtLeast(n: int, d: int, f: int)
    requires n >= 0 && d >= 1 && d * f <= n
    ensures f <= n / d
  {
    assert n == d * (n / d) + n % d;
    Distribute(d, n / d, -f);
    MultipleIsFar(d, n / d - f);
  }
}
