/** The functions of section 4.1.2 of FIPS 180-4, bit by bit. */
module Sha256Bits {
  import opened Words
  import opened Sha256

  /** The k-th bit, counted from the least significant. */
  function Bit(x: nat, k: nat): (b: nat)
    ensures b < 2
    decreases k
  {
    if k == 0 then x % 2 else Bit(x / 2, k - 1)
  }

  lemma Doubled(h: nat, b: nat)
    requires b < 2
    ensures (2 * h + b) / 2 == h && (2 * h + b) % 2 == b
  {}

  lemma ParityOfSum(x: nat, y: nat)
    ensures (x + y) % 2 == (x % 2 + y % 2) % 2
  {}

  lemma {:induction false} AndParts(x: nat, y: nat)
    ensures And(x, y) / 2 == And(x / 2, y / 2) && And(x, y) % 2 == if x % 2 == 1 && y % 2 == 1 then 1 else 0
  {
    if x > 0 && y > 0 { Doubled(And(x / 2, y / 2), if x % 2 == 1 && y % 2 == 1 then 1 else 0); }
  }

  lemma {:induction false} XorParts(x: nat, y: nat)
    ensures Xor(x, y) / 2 == Xor(x / 2, y / 2) && Xor(x, y) % 2 == (x % 2 + y % 2) % 2
  {
    if x > 0 && y > 0 {
      Doubled(Xor(x / 2, y / 2), (x + y) % 2);
      ParityOfSum(x, y);
    }
  }

  lemma {:induction false} BitOfAnd(x: nat, y: nat, k: nat)
    ensures Bit(And(x, y), k) == if Bit(x, k) == 1 && Bit(y, k) == 1 then 1 else 0
    decreases k
  {
    AndParts(x, y);
    if k > 0 { BitOfAnd(x / 2, y / 2, k - 1); }
  }

  lemma {:induction false} BitOfXor(x: nat, y: nat, k: nat)
    ensures Bit(Xor(x, y), k) == (Bit(x, k) + Bit(y, k)) % 2
    decreases k
  {
    XorParts(x, y);
    if k > 0 { BitOfXor(x / 2, y / 2, k - 1); }
  }

  lemma {:induction false} BitOfComplement(x: nat, n: nat, k: nat)
    requires x < Power(2, n) && k < n
    ensures Bit(Power(2, n) - 1 - x, k) == 1 - Bit(x, k)
    decreases k
  {
    var half := Power(2, n - 1);
    assert Power(2, n) == 2 * half;
    assert (2 * half - 1 - x) / 2 == half - 1 - x / 2;
    if k > 0 { BitOfComplement(x / 2, n - 1, k - 1); }
  }

  lemma ComplementFlips(x: Word, n: nat, k: nat)
    requires n == 32 && k < n
    ensures Bit(Complement(x), k) == 1 - Bit(x, k)
  {
    WordBits();
    BitOfComplement(x, n, k);
  }

  /** Ch takes the bit of y where x has one, and the bit of z elsewhere. */
  lemma ChChooses(x: Word, y: Word, z: Word, k: nat)
    requires k < 32
    ensures Bit(FIPS.ch(x, y, z), k) == if Bit(x, k) == 1 then Bit(y, k) else Bit(z, k)
  {
    ComplementFlips(x, 32, k);
    BitOfAnd(x, y, k);
    BitOfAnd(Complement(x), z, k);
    BitOfXor(AndWord(x, y), AndWord(Complement(x), z), k);
  }

  lemma BitOfThree(x: Word, y: Word, z: Word, k: nat)
    ensures Bit(Xor3(x, y, z), k) == (Bit(x, k) + Bit(y, k) + Bit(z, k)) % 2
  {
    BitOfXor(x, y, k);
    BitOfXor(XorWord(x, y), z, k);
  }

  /** Maj takes the bit that two of the three have. */
  lemma MajVotes(x: Word, y: Word, z: Word, k: nat)
    ensures Bit(FIPS.maj(x, y, z), k) == if Bit(x, k) + Bit(y, k) + Bit(z, k) >= 2 then 1 else 0
  {
    BitOfAnd(x, y, k);
    BitOfAnd(x, z, k);
    BitOfAnd(y, z, k);
    BitOfThree(AndWord(x, y), AndWord(x, z), AndWord(y, z), k);
  }

  lemma {:induction false} BitOfQuotient(x: nat, n: nat, k: nat)
    ensures x / Power(2, n) >= 0 && Bit(x / Power(2, n), k) == Bit(x, k + n)
  {
    if n > 0 {
      DivideTwice(x, 2, Power(2, n - 1));
      BitOfQuotient(x / 2, n - 1, k);
      assert Power(2, n) == Power(2, n - 1) * 2;
    } else {
      assert x / Power(2, n) == x;
    }
  }

  lemma {:induction false} BitOfJoin(high: nat, low: nat, m: nat, k: nat)
    requires low < Power(2, m)
    ensures high * Power(2, m) >= 0 && Bit(low + high * Power(2, m), k) == if k < m then Bit(low, k) else Bit(high, k - m)
  {
    if m == 0 {
      assert low + high * Power(2, m) == high;
    } else {
      Halved(high, m);
      var joined, rest := low + high * Power(2, m), low / 2 + high * Power(2, m - 1);
      assert joined / 2 == rest && joined % 2 == low % 2;
      if k > 0 { BitOfJoin(high, low / 2, m - 1, k - 1); }
    }
  }

  lemma BitOfRemainder(x: nat, n: nat, k: nat)
    requires k < n
    ensures x % Power(2, n) >= 0 && Bit(x % Power(2, n), k) == Bit(x, k)
  {
    var p := Power(2, n);
    QuotientIsSmaller(x, p);
    assert x == x % p + x / p * p;
    BitOfJoin(x / p, x % p, n, k);
  }

  lemma BitOfTurned(x: nat, n: nat, m: nat, k: nat)
    requires k < n + m && x / Power(2, n) < Power(2, m)
    ensures x / Power(2, n) >= 0 && x % Power(2, n) * Power(2, m) >= 0
    ensures Bit(x / Power(2, n) + x % Power(2, n) * Power(2, m), k) == Bit(x, if k < m then k + n else k - m)
  {
    QuotientIsSmaller(x, Power(2, n));
    BitOfJoin(x % Power(2, n), x / Power(2, n), m, k);
    if k < m {
      BitOfQuotient(x, n, k);
    } else {
      BitOfRemainder(x, n, k - m);
    }
  }

  lemma QuotientFits(x: Word, n: nat, m: nat)
    requires n + m == 32
    ensures x / Power(2, n) < Power(2, m) && Rotr(x, n) == x / Power(2, n) + x % Power(2, n) * Power(2, m)
  {
    RotrIsRotation(x, n);
    WordSplits(n);
    ShiftedOut(x, Power(2, n), Power(2, m), MODULUS);
  }

  lemma RotrTurns(x: Word, n: nat, m: nat, k: nat)
    requires n + m == 32 && k < n + m
    ensures Bit(Rotr(x, n), k) == Bit(x, if k < m then k + n else k - m)
  {
    QuotientFits(x, n, m);
    BitOfTurned(x, n, m, k);
  }

  /** A rotation to the right moves every bit n places down, round the word. */
  lemma RotrMovesBits(x: Word, n: nat, k: nat)
    requires n <= 32 && k < 32
    ensures Bit(Rotr(x, n), k) == Bit(x, (k + n) % 32)
  {
    var m := 32 - n;
    assert (k + n) % 32 == if k < m then k + n else k - m;
    RotrTurns(x, n, m, k);
  }

  /** The bit of x that a rotation by n brings to place k. */
  function Turned(x: Word, k: nat, n: nat): nat {
    Bit(x, (k + n) % 32)
  }

  /** The bit of x that a shift by n brings to place k: none from beyond the word. */
  function Shifted(x: Word, k: nat, n: nat): nat {
    Bit(x, k + n)
  }

  lemma BitOfRotations(x: Word, a: nat, b: nat, c: nat, k: nat)
    requires a <= 32 && b <= 32 && c <= 32 && k < 32
    ensures Bit(Xor3(Rotr(x, a), Rotr(x, b), Rotr(x, c)), k) == (Turned(x, k, a) + Turned(x, k, b) + Turned(x, k, c)) % 2
  {
    RotrMovesBits(x, a, k);
    RotrMovesBits(x, b, k);
    RotrMovesBits(x, c, k);
    BitOfThree(Rotr(x, a), Rotr(x, b), Rotr(x, c), k);
  }

  lemma BitOfShifted(x: Word, a: nat, b: nat, c: nat, k: nat)
    requires a <= 32 && b <= 32 && k < 32
    ensures Bit(Xor3(Rotr(x, a), Rotr(x, b), ShiftRight(x, c)), k) == (Turned(x, k, a) + Turned(x, k, b) + Shifted(x, k, c)) % 2
  {
    RotrMovesBits(x, a, k);
    RotrMovesBits(x, b, k);
    BitOfQuotient(x, c, k);
    BitOfThree(Rotr(x, a), Rotr(x, b), ShiftRight(x, c), k);
  }

  /** Every bit of the four sigmas is the parity of three bits of the word. */
  lemma BigSigma0IsParity(x: Word, k: nat)
    requires k < 32
    ensures Bit(FIPS.big0(x), k) == (Turned(x, k, 2) + Turned(x, k, 13) + Turned(x, k, 22)) % 2
  {
    BitOfRotations(x, 2, 13, 22, k);
  }

  lemma BigSigma1IsParity(x: Word, k: nat)
    requires k < 32
    ensures Bit(FIPS.big1(x), k) == (Turned(x, k, 6) + Turned(x, k, 11) + Turned(x, k, 25)) % 2
  {
    BitOfRotations(x, 6, 11, 25, k);
  }

  lemma SmallSigma0IsParity(x: Word, k: nat)
    requires k < 32
    ensures Bit(FIPS.small0(x), k) == (Turned(x, k, 7) + Turned(x, k, 18) + Shifted(x, k, 3)) % 2
  {
    BitOfShifted(x, 7, 18, 3, k);
  }

  lemma SmallSigma1IsParity(x: Word, k: nat)
    requires k < 32
    ensures Bit(FIPS.small1(x), k) == (Turned(x, k, 17) + Turned(x, k, 19) + Shifted(x, k, 10)) % 2
  {
    BitOfShifted(x, 17, 19, 10, k);
  }
}
