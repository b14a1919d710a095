/** The 64-bit two's complement integers of both runtimes, as ranges of `int`. */
module Int64 {
  const MIN: int := -0x8000_0000_0000_0000
  const MAX: int := 0x7fff_ffff_ffff_ffff
  const MODULUS: int := 0x1_0000_0000_0000_0000

  predicate Fits(n: int) { MIN <= n <= MAX }

  // What the machine keeps of an exact result: the value congruent to n that fits.
  function Wrap(n: int): (r: int)
    ensures Fits(r)
  {
    (n - MIN) % MODULUS + MIN
  }

  // Division of Go and C: truncated toward zero, unlike Dafny's Euclidean `/`.
  function TruncDiv(a: int, b: int): int
    requires b != 0
  {
    if a >= 0 then
      if b > 0 then a / b else -(a / -b)
    else
      if b > 0 then -(-a / b) else -a / -b
  }

  function TruncMod(a: int, b: int): int
    requires b != 0
  {
    a - b * TruncDiv(a, b)
  }
}
