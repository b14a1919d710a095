/** Bytes, numbers in bytes (either end first) and numbers in decimal digits. */
module Bytes {
  import opened Wrappers

  type byte = b: int | 0 <= b < 256
  type Bytes = seq<byte>

  function Power256(k: nat): nat { if k == 0 then 1 else 256 * Power256(k - 1) }

  // The k low bytes of n, the lowest first.
  function Little(n: nat, k: nat): (b: Bytes)
    ensures |b| == k
  {
    if k == 0 then [] else [n % 256] + Little(n / 256, k - 1)
  }

  function FromLittle(b: Bytes): nat { if b == [] then 0 else b[0] + 256 * FromLittle(b[1..]) }

  lemma {:induction false} LittleBack(n: nat, k: nat)
    requires n < Power256(k)
    ensures FromLittle(Little(n, k)) == n
  {
    if k > 0 {
      LittleBack(n / 256, k - 1);
      assert Little(n, k)[1..] == Little(n / 256, k - 1);
    }
  }

  lemma {:induction false} LittleTwo(n: nat)
    requires n < 0x1_0000
    ensures Little(n, 2) == [n % 256, n / 256]
  {
    assert Little(n / 256, 1) == [n / 256 % 256] + Little(n / 256 / 256, 0) == [n / 256];
  }

  lemma {:induction false} LittleThree(n: nat)
    requires n < 0x100_0000
    ensures Little(n, 3) == [n % 256, n / 256 % 256, n / 0x1_0000]
  {
    LittleTwo(n / 256);
    assert n / 256 / 256 == n / 0x1_0000;
  }

  // The number that eight bytes stand for, the lowest first.
  function Eight(b: Bytes): int
    requires |b| == 8
  {
    b[0] as int + 256 * (b[1] as int + 256 * (b[2] as int + 256 * (b[3] as int
      + 256 * (b[4] as int + 256 * (b[5] as int + 256 * (b[6] as int + 256 * b[7] as int))))))
  }

  lemma {:induction false} LittleEight(n: nat)
    requires n < Power256(8)
    ensures Eight(Little(n, 8)) == n
  {
    var (b, m) := (Little(n, 8), n / 0x1_0000_0000);
    assert Power256(4) == 0x1_0000_0000 by { assert Power256(2) == 0x1_0000; }
    assert Power256(8) == 0x1_0000_0000 * 0x1_0000_0000 by { assert Power256(6) == 0x1_0000_0000 * 0x1_0000; }
    LittleFour(n, 4);
    LittleFour(m, 0);
  }

  lemma {:induction false} LittleFour(n: nat, k: nat)
    ensures var b := Little(n, 4 + k);
            && b[4..] == Little(n / 0x1_0000_0000, k)
            && b[0] as int + 256 * (b[1] as int + 256 * (b[2] as int + 256 * b[3] as int)) == n % 0x1_0000_0000
  {
    var m1 := n / 256;
    var m2 := m1 / 256;
    var m3 := m2 / 256;
    assert Little(m2, 2 + k) == [m2 % 256] + ([m3 % 256] + Little(m3 / 256, k));
    assert Little(n, 4 + k) == [n % 256] + ([m1 % 256] + Little(m2, 2 + k));
    Quarters(n);
  }

  lemma {:induction false} Quarters(n: nat)
    ensures var (m1, m2, m3) := (n / 256, n / 256 / 256, n / 256 / 256 / 256);
            && m3 / 256 == n / 0x1_0000_0000
            && n % 256 + 256 * (m1 % 256 + 256 * (m2 % 256 + 256 * (m3 % 256))) == n % 0x1_0000_0000
  {
    var (m1, m2, m3) := (n / 256, n / 256 / 256, n / 256 / 256 / 256);
    assert n == n % 256 + 256 * (m1 % 256 + 256 * (m2 % 256 + 256 * (m3 % 256 + 256 * (m3 / 256))));
  }

  // The k low bytes of n, the highest first.
  function Big(n: nat, k: nat): (b: Bytes)
    ensures |b| == k
  {
    if k == 0 then [] else Big(n / 256, k - 1) + [n % 256]
  }

  function FromBig(b: Bytes): nat { if b == [] then 0 else 256 * FromBig(b[..|b| - 1]) + b[|b| - 1] }

  lemma {:induction false} BigIsLittle(n: nat, k: nat, i: nat)
    requires i < k
    ensures Big(n, k)[i] == Little(n, k)[k - 1 - i]
  {
    if i < k - 1 { BigIsLittle(n / 256, k - 1, i); }
  }

  lemma {:induction false} BigBack(n: nat, k: nat)
    requires n < Power256(k)
    ensures FromBig(Big(n, k)) == n
  {
    if k > 0 {
      BigBack(n / 256, k - 1);
      assert Big(n, k)[..k - 1] == Big(n / 256, k - 1);
    }
  }

  // ----- Exclusive or, bit by bit -----

  function XorBits(a: nat, b: nat, k: nat): (x: nat)
    ensures x < Power2(k)
  {
    if k == 0 then 0 else (a + b) % 2 + 2 * XorBits(a / 2, b / 2, k - 1)
  }

  function Power2(k: nat): nat { if k == 0 then 1 else 2 * Power2(k - 1) }

  function Xor(a: byte, b: byte): byte {
    assert Power2(8) == 256 by { assert Power2(4) == 16 && Power2(6) == 64; }
    XorBits(a, b, 8)
  }

  lemma {:induction false} XorBitsTwice(a: nat, b: nat, k: nat)
    requires a < Power2(k)
    ensures XorBits(XorBits(a, b, k), b, k) == a
  {
    if k > 0 {
      var high := XorBits(a / 2, b / 2, k - 1);
      XorBitsTwice(a / 2, b / 2, k - 1);
      Halves((a + b) % 2, high);
      Parity(a, b, (a + b) % 2 + 2 * high);
    }
  }

  lemma Halves(bit: nat, high: nat)
    requires bit < 2
    ensures (bit + 2 * high) / 2 == high && (bit + 2 * high) % 2 == bit
  {}

  lemma Parity(a: nat, b: nat, x: nat)
    requires x % 2 == (a + b) % 2
    ensures (x + b) % 2 == a % 2
  {}

  // Masking twice with the same byte gives the byte back.
  lemma XorTwice(a: byte, b: byte)
    ensures Xor(Xor(a, b), b) == a
  {
    assert Power2(8) == 256 by { assert Power2(4) == 16 && Power2(6) == 64; }
    XorBitsTwice(a, b, 8);
  }

  // ----- Decimal -----

  predicate IsDigit(b: byte) { 48 <= b <= 57 }

  function Decimal(n: nat): (s: Bytes)
    ensures s != [] && forall i :: 0 <= i < |s| ==> IsDigit(s[i])
  {
    if n < 10 then [48 + n] else Decimal(n / 10) + [48 + n % 10]
  }

  // The number that the digits spell; None if there is something else.
  function Digits(s: Bytes): Option<nat> {
    if s == [] then Some(0)
    else if !IsDigit(s[|s| - 1]) then None
    else
      var high := Digits(s[..|s| - 1]);
      if high.None? then None else Some(10 * high.value + (s[|s| - 1] - 48))
  }

  lemma {:induction false} DigitsDecimal(n: nat)
    ensures Digits(Decimal(n)) == Some(n)
  {
    if n < 10 {
      assert Decimal(n)[..0] == [];
    } else {
      DigitsDecimal(n / 10);
      assert Decimal(n)[..|Decimal(n)| - 1] == Decimal(n / 10);
    }
  }
}
