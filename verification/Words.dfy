/** Unsigned 32-bit words as numbers, with the bit operations written out. */
module Words {

  const MODULUS := 0x1_0000_0000

  type Word = x: nat | x < MODULUS
  type Byte = x: nat | x < 256

  function Power(b: nat, n: nat): (r: nat)
    requires b > 0
    ensures r > 0
  {
    if n == 0 then 1 else b * Power(b, n - 1)
  }

  function And(x: nat, y: nat): nat
    decreases x + y
  {
    if x == 0 || y == 0 then 0 else 2 * And(x / 2, y / 2) + (if x % 2 == 1 && y % 2 == 1 then 1 else 0)
  }

  function Or(x: nat, y: nat): nat
    decreases x + y
  {
    if x == 0 then y else if y == 0 then x else 2 * Or(x / 2, y / 2) + (if x % 2 == 1 || y % 2 == 1 then 1 else 0)
  }

  function Xor(x: nat, y: nat): nat
    decreases x + y
  {
    if x == 0 then y else if y == 0 then x else 2 * Xor(x / 2, y / 2) + (x + y) % 2
  }

  /** Numbers of n bits stay numbers of n bits. */
  lemma {:induction false} BitsStay(x: nat, y: nat, n: nat)
    requires x < Power(2, n) && y < Power(2, n)
    ensures And(x, y) < Power(2, n) && Or(x, y) < Power(2, n) && Xor(x, y) < Power(2, n)
  {
    if n > 0 {
      BitsStay(x / 2, y / 2, n - 1);
    }
  }

  /** Bits that do not meet are added. */
  lemma {:induction false} OrDisjoint(x: nat, y: nat, n: nat)
    requires y < Power(2, n)
    ensures Or(x * Power(2, n), y) == x * Power(2, n) + y
  {
    if n > 0 && x > 0 && y > 0 {
      OrDisjoint(x, y / 2, n - 1);
      Halved(x, n);
    }
  }

  lemma Halved(x: nat, n: nat)
    requires n > 0
    ensures x * Power(2, n) / 2 == x * Power(2, n - 1) && x * Power(2, n) % 2 == 0
  {
    var half := x * Power(2, n - 1);
    assert x * Power(2, n) == 2 * half;
  }

  lemma WordBits()
    ensures Power(2, 32) == MODULUS
  {
    assert Power(2, 8) == 256;
    assert Power(2, 16) == 256 * 256 by { PowerSum(2, 8, 8); }
    PowerSum(2, 16, 16);
  }

  lemma {:induction false} PowerSum(b: nat, m: nat, n: nat)
    requires b > 0
    ensures Power(b, m + n) == Power(b, m) * Power(b, n)
  {
    if m > 0 {
      PowerSum(b, m - 1, n);
      assert b * (Power(b, m - 1) * Power(b, n)) == b * Power(b, m - 1) * Power(b, n);
    }
  }

  // ---- operations on words ----

  function Add(x: Word, y: Word): Word { (x + y) % MODULUS }

  function Complement(x: Word): Word { MODULUS - 1 - x }

  function AndWord(x: Word, y: Word): Word {
    WordBits(); BitsStay(x, y, 32); And(x, y)
  }

  function OrWord(x: Word, y: Word): Word {
    WordBits(); BitsStay(x, y, 32); Or(x, y)
  }

  function XorWord(x: Word, y: Word): Word {
    WordBits(); BitsStay(x, y, 32); Xor(x, y)
  }

  function ShiftRight(x: Word, n: nat): Word { QuotientIsSmaller(x, Power(2, n)); x / Power(2, n) }

  function ShiftLeft(x: Word, n: nat): Word { (x * Power(2, n)) % MODULUS }

  function Rotr(x: Word, n: nat): Word
    requires n <= 32
  {
    OrWord(ShiftRight(x, n), ShiftLeft(x, 32 - n))
  }

  lemma QuotientIsSmaller(v: nat, d: nat)
    requires d > 0
    ensures 0 <= v / d <= v && 0 <= v % d < d
  {
    var q := v / d;
    assert v == d * q + v % d;
    ProductAtLeast(d, q);
    Monotone(q, 1, d);
  }

  // ---- division ----

  lemma ProductAtLeast(d: int, x: int)
    requires d > 0
    ensures x >= 1 ==> d * x >= d
    ensures x <= -1 ==> d * x <= -d
  {}

  lemma QuotientIsUnique(v: int, d: int, q: int, r: int)
    requires 0 <= r < d && v == d * q + r
    ensures v / d == q && v % d == r
  {
    var x := v / d - q;
    ProductAtLeast(d, x);
    assert v == d * (v / d) + v % d;
    assert d * x == d * (v / d) - d * q;
  }

  lemma SameDivision(v: nat, w: nat, d: nat)
    requires d > 0 && v / d == w / d && v % d == w % d
    ensures v == w
  {
    assert v == d * (v / d) + v % d && w == d * (w / d) + w % d;
  }

  lemma DivideTwice(v: nat, a: nat, b: nat)
    requires a > 0 && b > 0
    ensures b * a > 0 && v / (b * a) == v / a / b
  {
    var q, r := v / a, v % a;
    var p, s := q / b, q % b;
    assert v == a * q + r && q == b * p + s;
    assert a * (b * p + s) == b * a * p + a * s;
    assert a * s <= a * (b - 1) == b * a - a by { Monotone(a, s, b - 1); }
    ProductAtLeast(a, b);
    QuotientIsUnique(v, b * a, p, a * s + r);
  }

  lemma Monotone(a: nat, x: int, y: int)
    requires x <= y
    ensures a * x <= a * y
  {}

  // ---- what a rotation is ----

  lemma {:induction false} OrCommutes(x: nat, y: nat)
    ensures Or(x, y) == Or(y, x)
    decreases x + y
  {
    if x > 0 && y > 0 {
      OrCommutes(x / 2, y / 2);
    }
  }

  lemma ShiftedOut(x: nat, p: nat, h: nat, m: nat)
    requires p > 0 && h > 0 && p * h == m && x < m
    ensures x / p < h && x * h % m == x % p * h
  {
    var q, r := x / p, x % p;
    assert x == p * q + r;
    assert x * h == m * q + r * h by {
      assert (p * q + r) * h == p * q * h + r * h;
      assert p * q * h == p * h * q;
    }
    assert 0 <= r * h <= (p - 1) * h < m by { Monotone(h, r, p - 1); Monotone(h, 0, r); }
    QuotientIsUnique(x * h, m, q, r * h);
    if q >= h { Monotone(p, h, q); }
  }

  lemma WordSplits(n: nat)
    requires n <= 32
    ensures Power(2, n) * Power(2, 32 - n) == MODULUS
  {
    PowerSum(2, n, 32 - n);
    WordBits();
  }

  lemma RotatedParts(x: Word, n: nat, p: nat, h: nat, q: nat, r: nat)
    requires n <= 32 && p == Power(2, n) && h == Power(2, 32 - n) && p * h == MODULUS
    requires q == x / p && r == x % p && q < h
    ensures Rotr(x, n) == Or(q, r * h) == q + r * h
  {
    ShiftedOut(x, p, h, MODULUS);
    OrDisjoint(r, q, 32 - n);
    OrCommutes(q, r * h);
  }

  /** The bits that fall off the low end come back at the high end, and nothing else moves. */
  lemma RotrIsRotation(x: Word, n: nat)
    requires n <= 32
    ensures Rotr(x, n) == x / Power(2, n) + x % Power(2, n) * Power(2, 32 - n)
  {
    var p, h := Power(2, n), Power(2, 32 - n);
    WordSplits(n);
    QuotientIsSmaller(x, p);
    ShiftedOut(x, p, h, MODULUS);
    RotatedParts(x, n, p, h, x / p, x % p);
  }
}
