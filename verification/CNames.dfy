/** The names in the emitted C: a variable is named after the bytes of its name, a temporary after its number. */
module CNames {
  import opened Wrappers
  import opened Bytes

  function HexDigit(d: int): byte
    requires 0 <= d < 16
  {
    if d < 10 then 48 + d else 87 + d
  }

  // Two lower-case digits to a byte.
  function Hex(s: Bytes): Bytes {
    if s == [] then [] else [HexDigit(s[0] / 16), HexDigit(s[0] % 16)] + Hex(s[1..])
  }

  const USER: Bytes := ['u' as int, '_' as int]
  const TEMP: Bytes := ['t' as int, 'm' as int, 'p' as int, '_' as int]

  function Ident(name: Bytes): Bytes { USER + Hex(name) }

  function Temp(serial: nat): Bytes { TEMP + Decimal(serial) }

  lemma {:induction false} HexInjective(a: Bytes, b: Bytes)
    requires Hex(a) == Hex(b)
    ensures a == b
  {
    if a != [] && b != [] {
      assert Hex(a)[0] == HexDigit(a[0] / 16) && Hex(a)[1] == HexDigit(a[0] % 16) && Hex(a)[2..] == Hex(a[1..]);
      assert Hex(b)[0] == HexDigit(b[0] / 16) && Hex(b)[1] == HexDigit(b[0] % 16) && Hex(b)[2..] == Hex(b[1..]);
      assert a[0] == a[0] / 16 * 16 + a[0] % 16 && b[0] == b[0] / 16 * 16 + b[0] % 16;
      HexInjective(a[1..], b[1..]);
      assert a == [a[0]] + a[1..] && b == [b[0]] + b[1..];
    }
  }

  // Different variables and different temporaries have different names, and no variable is named like
  // a temporary.
  lemma NamesNeverMeet(a: Bytes, b: Bytes, m: nat, n: nat)
    ensures Ident(a) == Ident(b) ==> a == b
    ensures Temp(m) == Temp(n) ==> m == n
    ensures Ident(a) != Temp(n)
  {
    assert Ident(a)[2..] == Hex(a) && Ident(b)[2..] == Hex(b);
    if Ident(a) == Ident(b) { HexInjective(a, b); }
    assert Temp(m)[4..] == Decimal(m) && Temp(n)[4..] == Decimal(n);
    DigitsDecimal(m);
    DigitsDecimal(n);
    assert Ident(a)[0] == 'u' as int && Temp(n)[0] == 't' as int;
  }
}
