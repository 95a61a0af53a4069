/** Unsigned 64-bit arithmetic, which wraps around. */
module Uint64 {

  const WORD: nat := 0x1_0000_0000_0000_0000

  type u64 = n: nat | n < WORD

  function Wrap(n: nat): u64 { n % WORD }

  /** The word has 64 bits. */
  lemma WordIsPower()
    ensures WORD == Power(64)
  {
    assert Power(4) == 16;
    PowerAdds(4, 4);
    assert Power(8) == 256;
    PowerAdds(8, 8);
    assert Power(16) == 0x1_0000;
    PowerAdds(16, 16);
    assert Power(32) == 0x1_0000_0000;
    PowerAdds(32, 32);
  }

  function Power(n: nat): nat { if n == 0 then 1 else 2 * Power(n - 1) }

  lemma {:induction false} PowerAdds(m: nat, n: nat)
    ensures Power(m + n) == Power(m) * Power(n)
  {
    if n > 0 {
      PowerAdds(m, n - 1);
      assert Power(m) * Power(n) == 2 * (Power(m) * Power(n - 1));
    }
  }

  lemma WrapAdd(a: nat, b: nat)
    ensures Wrap(Wrap(a) + b) == Wrap(a + b)
  {
  }

  lemma WrapSmall(n: nat)
    requires n < WORD
    ensures Wrap(n) == n
  {
  }

  /** Equal modulo 2^64. */
  predicate Congruent(a: int, b: int) { (a - b) % WORD == 0 }

  lemma DoubleIsDifferent(c: u64)
    requires c != 0
    ensures !Congruent(2 * c, c)
  {
    WrapSmall(c);
  }

  lemma WrapEquals(n: nat, c: nat)
    requires c <= n && c < WORD
    ensures Wrap(n) == c <==> Congruent(n, c)
  {
  }
}
