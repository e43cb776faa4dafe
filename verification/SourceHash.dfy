/** `hashSource`: the 32-bit loop computes a polynomial in 33, which is printed in base 36. */
module SourceHash {
  import opened CodeUnits

  const MODULUS := 0x1_0000_0000

  /** `x | 0`: the low 32 bits, read as a signed number. */
  function ToInt32(x: int): int {
    var low := x % MODULUS;
    if low >= 0x8000_0000 then low - MODULUS else low
  }

  /** `x >>> 0`. */
  function ToUint32(x: int): nat {
    x % MODULUS
  }

  function Polynomial(source: seq<Unit>): nat {
    if source == [] then 5381 else 33 * Polynomial(source[..|source| - 1]) + source[|source| - 1]
  }

  ghost predicate Congruent(a: int, b: int) {
    exists k :: a == b + k * MODULUS
  }

  lemma ToInt32IsCongruent(x: int)
    ensures Congruent(ToInt32(x), x)
  {
    var k := if x % MODULUS >= 0x8000_0000 then -(x / MODULUS) - 1 else -(x / MODULUS);
    assert ToInt32(x) == x + k * MODULUS;
  }

  lemma SameResidue(a: int, b: int)
    requires Congruent(a, b)
    ensures a % MODULUS == b % MODULUS
  {
    var k :| a == b + k * MODULUS;
    var q, r := b / MODULUS, b % MODULUS;
    assert a == (q + k) * MODULUS + r;
  }

  lemma StepIsCongruent(hash: int, p: int, c: Unit)
    requires Congruent(hash, p)
    ensures Congruent(ToInt32(ToInt32(32 * hash) + hash + c), 33 * p + c)
  {
    var k :| hash == p + k * MODULUS;
    ToInt32IsCongruent(32 * hash);
    var i :| ToInt32(32 * hash) == 32 * hash + i * MODULUS;
    var sum := ToInt32(32 * hash) + hash + c;
    ToInt32IsCongruent(sum);
    var j :| ToInt32(sum) == sum + j * MODULUS;
    assert ToInt32(sum) == 33 * p + c + (33 * k + i + j) * MODULUS;
  }

  // ---- base 36 ------------------------------------------------------------------------------

  /** `toString(36)` of a whole number. */
  function Base36(n: nat): (t: Text)
    ensures t != []
  {
    if n < 36 then [Digit(n)] else Base36(n / 36) + [Digit(n % 36)]
  }

  lemma {:induction false} Base36Differs(n: nat, m: nat)
    requires Base36(n) == Base36(m)
    ensures n == m
  {
    var a, b := Base36(n), Base36(m);
    assert a[|a| - 1] == Digit(n % 36) && b[|b| - 1] == Digit(m % 36);
    if n >= 36 && m >= 36 {
      assert a[..|a| - 1] == Base36(n / 36) && b[..|b| - 1] == Base36(m / 36);
      Base36Differs(n / 36, m / 36);
    }
  }

  function Hash(source: seq<Unit>): Text {
    Base36(Polynomial(source) % MODULUS)
  }

  method HashSource(source: seq<Unit>) returns (text: Text)
    ensures text == Hash(source)
  {
    var hash := 5381;
    assert hash == Polynomial([]) + 0 * MODULUS;
    for i := 0 to |source|
      invariant Congruent(hash, Polynomial(source[..i]))
    {
      StepIsCongruent(hash, Polynomial(source[..i]), source[i]);
      assert source[..i + 1][..i] == source[..i];
      hash := ToInt32(ToInt32(32 * hash) + hash + source[i]);
    }
    assert source[..|source|] == source;
    SameResidue(hash, Polynomial(source));
    text := Base36(ToUint32(hash));
  }

  /** Two sources share a hash exactly when their polynomials agree modulo 2^32. */
  lemma SameHashIff(a: seq<Unit>, b: seq<Unit>)
    ensures Hash(a) == Hash(b) <==> Congruent(Polynomial(a), Polynomial(b))
  {
    var p, q := Polynomial(a), Polynomial(b);
    if Hash(a) == Hash(b) {
      Base36Differs(p % MODULUS, q % MODULUS);
      assert p == q + (p / MODULUS - q / MODULUS) * MODULUS;
    } else if Congruent(p, q) {
      SameResidue(p, q);
    }
  }
}
