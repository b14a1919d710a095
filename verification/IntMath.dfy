/**
Checked arithmetic on 64-bit integers, in the Go runtime and in the portable branches of the C runtime.
An overflow stops the program, which is None here.
*/
module IntMath {
  import opened Wrappers
  import opened Int64

  // The exact result, or a stop if it does not fit.
  function Checked(n: int): Option<int> { if Fits(n) then Some(n) else None }

  function Pow(b: int, e: nat): int { if e == 0 then 1 else b * Pow(b, e - 1) }

  function Abs(n: int): nat { if n < 0 then -n else n }

  // ----- Addition, subtraction, multiplication -----

  method AddInt(a: int, b: int) returns (r: Option<int>)
    requires Fits(a) && Fits(b)
    ensures r == Checked(a + b)
  {
    if (b > 0 && a > Wrap(MAX - b)) || (b < 0 && a < Wrap(MIN - b)) { return None; }
    r := Some(Wrap(a + b));
  }

  method SubInt(a: int, b: int) returns (r: Option<int>)
    requires Fits(a) && Fits(b)
    ensures r == Checked(a - b)
  {
    if (b < 0 && a > Wrap(MAX + b)) || (b > 0 && a < Wrap(MIN + b)) { return None; }
    r := Some(Wrap(a - b));
  }

  method MulInt(a: int, b: int) returns (r: Option<int>)
    requires Fits(a) && Fits(b)
    ensures r == Checked(a * b)
  {
    if a == 0 || b == 0 { return Some(0); }
    ProductDecided(a, b);
    if (a == -1 && b == MIN) || (b == -1 && a == MIN) { return None; }
    var res := Wrap(a * b);
    if Wrap(TruncDiv(res, b)) != a { return None; }
    r := Some(res);
  }

  // The portable branch of the C check, which also stores the wrapped product.
  method CheckMulOverflow(a: int, b: int) returns (overflow: bool, res: int)
    requires Fits(a) && Fits(b)
    ensures overflow <==> !Fits(a * b)
    ensures !overflow ==> res == a * b
  {
    if a == 0 || b == 0 { return false, 0; }
    ProductDecided(a, b);
    if (a == -1 && b == MIN) || (b == -1 && a == MIN) { return true, 0; }
    res := Wrap(a * b);
    overflow := Wrap(TruncDiv(res, b)) != a;
  }

  // What the two guards and the division by b decide.
  lemma ProductDecided(a: int, b: int)
    requires Fits(a) && Fits(b) && a != 0 && b != 0
    ensures (a == -1 && b == MIN) || (b == -1 && a == MIN) ==> !Fits(a * b)
    ensures !(b == -1 && a == MIN) ==> (Wrap(TruncDiv(Wrap(a * b), b)) != a <==> !Fits(a * b))
    ensures Fits(a * b) ==> Wrap(a * b) == a * b
  {
    QuotientTells(a, b);
    WrapCongruent(a * b);
  }

  // Dividing the wrapped product gives the factor back exactly if the product did not wrap, but for
  // the one product whose quotient wraps too.
  lemma QuotientTells(a: int, b: int)
    requires Fits(a) && Fits(b) && b != 0
    ensures (Wrap(TruncDiv(Wrap(a * b), b)) == a <==> Fits(a * b)) <==> !(a == MIN && b == -1)
  {
    var p := a * b;
    WrapCongruent(p);
    if a == MIN && b == -1 {
      assert p == MAX + 1 && Wrap(p) == MIN && TruncDiv(MIN, -1) == MAX + 1 && Wrap(MAX + 1) == MIN;
    } else if Fits(p) {
      TruncExact(a, b);
    } else {
      WrappedTells(a, b);
      assert b == -1 ==> p == -a;
      QuotientFits(Wrap(p), b);
    }
  }

  lemma WrappedTells(a: int, b: int)
    requires Fits(a) && Fits(b) && b != 0 && !Fits(a * b)
    ensures TruncDiv(Wrap(a * b), b) != a
  {
    WrapCongruent(a * b);
    TruncDivides(Wrap(a * b), b);
    assert a * b == b * a;
  }

  lemma WrapCongruent(n: int)
    ensures Fits(n) ==> Wrap(n) == n
    ensures !Fits(n) ==> Abs(n - Wrap(n)) >= MODULUS
  {
    var q := (n - MIN) / MODULUS;
    assert n - Wrap(n) == q * MODULUS;
    if q >= 1 { assert q * MODULUS >= MODULUS; }
    if q <= -1 { assert q * MODULUS <= -MODULUS; }
  }

  lemma Euclid(x: int, y: int) returns (q: int)
    requires x >= 0 && y > 0
    ensures q == x / y && q >= 0 && 0 <= x - y * q < y
  {
    q := x / y;
  }

  lemma TruncIs(a: int, b: int)
    requires b != 0
    ensures TruncDiv(a, b) == if (a >= 0) == (b > 0) then Abs(a) / Abs(b) else -(Abs(a) / Abs(b))
  {}

  // Truncated division: the remainder is smaller than the divisor and has the sign of the dividend.
  lemma TruncDivides(a: int, b: int)
    requires b != 0
    ensures var r := a - b * TruncDiv(a, b); Abs(r) < Abs(b) && (a >= 0 ==> r >= 0) && (a <= 0 ==> r <= 0)
  {
    TruncIs(a, b);
    var q := Euclid(Abs(a), Abs(b));
    Signed(b, q, Abs(b) * q);
  }

  lemma Signed(b: int, q: int, p: int)
    requires p == Abs(b) * q
    ensures b * q == (if b < 0 then -p else p) && b * -q == (if b < 0 then p else -p)
  {}

  lemma QuotientFits(w: int, b: int)
    requires Fits(w) && Fits(b) && b != 0 && !(w == MIN && b == -1)
    ensures Fits(TruncDiv(w, b)) && Wrap(TruncDiv(w, b)) == TruncDiv(w, b)
  {
    var q := TruncDiv(w, b);
    TruncDivides(w, b);
    if b == -1 {
      assert q == -w;
    } else if b == 1 {
      assert q == w;
    } else if !Fits(q) {
      Larger(b, q);
    }
    WrapCongruent(q);
  }

  lemma Larger(b: int, q: int)
    requires Abs(b) >= 2
    ensures Abs(b * q) >= 2 * Abs(q)
  {
    if b >= 2 { assert b * q == 2 * q + (b - 2) * q; }
    if b <= -2 { assert b * q == -2 * q + (b + 2) * q; }
    if q >= 0 { if b >= 2 { assert (b - 2) * q >= 0; } else { assert (b + 2) * q <= 0; } }
    else { if b >= 2 { assert (b - 2) * q <= 0; } else { assert (b + 2) * q >= 0; } }
  }

  lemma TruncExact(a: int, b: int)
    requires b != 0
    ensures TruncDiv(a * b, b) == a
  {
    var q := TruncDiv(a * b, b);
    TruncDivides(a * b, b);
    assert a * b - b * q == b * (a - q);
    if q != a { Factor(b, a - q); }
  }

  lemma Factor(b: int, d: int)
    requires d != 0
    ensures Abs(b * d) >= Abs(b)
  {
    if d >= 1 { if b >= 0 { assert b * d >= b; } else { assert b * d <= b; } }
    else { if b >= 0 { assert b * d <= -b; } else { assert b * d >= -b; } }
  }

  // ----- Division -----

  datatype Quotient = Stop | ByZero | Value(n: int)

  // The quotient toward zero: the remainder it leaves has the sign of a.
  method DivInt(a: int, b: int) returns (r: Quotient)
    requires Fits(a) && Fits(b)
    ensures r.ByZero? <==> b == 0
    ensures r.Stop? <==> a == MIN && b == -1
    ensures r.Value? ==> Fits(r.n) && Abs(a - b * r.n) < Abs(b) && (a >= 0 ==> a - b * r.n >= 0) && (a <= 0 ==> a - b * r.n <= 0)
  {
    if b == 0 { return ByZero; }
    if a == MIN && b == -1 { return Stop; }
    TruncDivides(a, b);
    QuotientFits(a, b);
    r := Value(Wrap(TruncDiv(a, b)));
  }

  // The remainder of that quotient, for every divisor but zero.
  method ModInt(a: int, b: int) returns (r: Quotient)
    requires Fits(a) && Fits(b)
    ensures r == if b == 0 then ByZero else Value(TruncMod(a, b))
    ensures r.Value? ==> Fits(r.n) && Abs(r.n) < Abs(b)
  {
    if b == 0 { return ByZero; }
    TruncDivides(a, b);
    if a == MIN && b == -1 { return Value(0); }
    r := Value(TruncMod(a, b));
  }

  // ----- Powers -----

  lemma {:induction false} PowSquare(b: int, e: nat)
    ensures Pow(b * b, e) == Pow(b, 2 * e)
  {
    if e > 0 {
      PowSquare(b, e - 1);
      assert Pow(b, 2 * e) == b * Pow(b, 2 * e - 1) == b * (b * Pow(b, 2 * e - 2));
      assert b * (b * Pow(b, 2 * e - 2)) == b * b * Pow(b, 2 * e - 2);
    }
  }

  lemma {:induction false} PowPositive(b: int, e: nat)
    requires b > 0
    ensures Pow(b, e) >= 1
  {
    if e > 0 {
      PowPositive(b, e - 1);
      assert b * Pow(b, e - 1) >= 1;
    }
  }

  // If the product with an odd factor left over does not fit, neither does the whole power.
  lemma {:induction false} ProductTells(res: int, base: int, exp: nat)
    requires exp % 2 == 1 && !Fits(res * base)
    ensures !Fits(res * Pow(base, exp))
  {
    var m, q := res * base, Pow(base * base, exp / 2);
    PowSquare(base, exp / 2);
    assert res * Pow(base, exp) == m * q by {
      assert 2 * (exp / 2) == exp - 1 && Pow(base, exp) == base * q;
      assert res * (base * q) == m * q;
    }
    assert base != 0;
    assert base * base > 0;
    PowPositive(base * base, exp / 2);
    Factor(m, q);
    if m > 0 { assert m * q > 0; } else { assert m * q < 0; }
  }

  // If a square still needed does not fit, neither does the whole power: 2^63 is not a square.
  lemma {:induction false} SquareTells(res: int, base: int, exp: nat)
    requires exp >= 1 && !Fits(base * base) && (base != 0 ==> res != 0)
    ensures !Fits(res * Pow(base * base, exp))
  {
    var s := base * base;
    assert base != 0;
    SquareLeaves(base);
    PowPositive(s, exp - 1);
    Factor(s, Pow(s, exp - 1));
    Factor(Pow(s, exp), res);
    assert Pow(s, exp) * res == res * Pow(s, exp);
  }

  lemma SquareLeaves(base: int)
    requires !Fits(base * base)
    ensures base * base > -MIN
  {
    var n := Abs(base);
    assert n * n == base * base;
    if n <= 3037000499 { AtMost(n, 3037000499); assert 3037000499 * 3037000499 <= MAX; }
    else { AtMost(3037000500, n); assert 3037000500 * 3037000500 > -MIN; }
  }

  lemma AtMost(m: nat, n: nat)
    requires m <= n
    ensures m * m <= n * n
  {}

  // Exactly the power, if it fits: no intermediate square stops the program by itself.
  method PowInt(b: int, e: int) returns (r: Option<int>)
    requires Fits(b) && Fits(e)
    ensures r == if e < 0 then None else Checked(Pow(b, e))
  {
    if e < 0 { return None; }
    var res, base, exp := 1, b, e;
    while exp > 0
      invariant 0 <= exp && Fits(res) && Fits(base) && (base != 0 ==> res != 0)
      invariant res * Pow(base, exp) == Pow(b, e)
    {
      if exp % 2 == 1 {
        if !Fits(res * base) { ProductTells(res, base, exp); }
        var m := MulInt(res, base);
        if m.None? { return None; }
        OddStep(res, base, exp);
        res := m.value;
      }
      exp := exp / 2;
      PowSquare(base, exp);
      if exp > 0 {
        if !Fits(base * base) { SquareTells(res, base, exp); }
        var s := MulInt(base, base);
        if s.None? { return None; }
        base := s.value;
      }
    }
    r := Some(res);
  }

  lemma {:induction false} OddStep(res: int, base: int, exp: nat)
    requires exp % 2 == 1
    ensures res * base * Pow(base, 2 * (exp / 2)) == res * Pow(base, exp)
    ensures base != 0 && res != 0 ==> res * base != 0
  {
    assert 2 * (exp / 2) == exp - 1;
    assert res * (base * Pow(base, exp - 1)) == res * base * Pow(base, exp - 1);
  }

  // The loop of the C runtime: the square is taken before the exponent is halved, while it exceeds one.
  method VPow(b: int, e: int) returns (r: Option<int>)
    requires Fits(b) && Fits(e)
    ensures r == if e < 0 then None else Checked(Pow(b, e))
  {
    var base, exp, res := b, e, 1;
    if exp < 0 { return None; }
    while exp > 0
      invariant 0 <= exp && Fits(res) && Fits(base) && (exp > 0 && base != 0 ==> res != 0)
      invariant exp > 0 ==> res * Pow(base, exp) == Pow(b, e)
      invariant exp == 0 ==> res == Pow(b, e)
    {
      ghost var before := res;
      if exp % 2 == 1 {
        if !Fits(res * base) { ProductTells(res, base, exp); }
        var overflow, m := CheckMulOverflow(res, base);
        if overflow { return None; }
        OddStep(res, base, exp);
        res := m;
      }
      assert res * Pow(base, 2 * (exp / 2)) == Pow(b, e);
      PowSquare(base, exp / 2);
      if exp > 1 {
        if !Fits(base * base) { SquareTells(res, base, exp / 2); }
        var overflow, s := CheckMulOverflow(base, base);
        if overflow { return None; }
        base := s;
      } else {
        assert Pow(base, 0) == 1;
      }
      exp := exp / 2;
    }
    r := Some(res);
  }
}
