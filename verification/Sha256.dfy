/** SHA-256 as the profile fingerprint computes it, against the function of FIPS 180-4. */
module Sha256 {
  import opened Words

  const K0: seq<Word> := [0x428a2f98, 0x71374491, 0xb5c0fbcf, 0xe9b5dba5, 0x3956c25b, 0x59f111f1, 0x923f82a4, 0xab1c5ed5]
  const K1: seq<Word> := [0xd807aa98, 0x12835b01, 0x243185be, 0x550c7dc3, 0x72be5d74, 0x80deb1fe, 0x9bdc06a7, 0xc19bf174]
  const K2: seq<Word> := [0xe49b69c1, 0xefbe4786, 0x0fc19dc6, 0x240ca1cc, 0x2de92c6f, 0x4a7484aa, 0x5cb0a9dc, 0x76f988da]
  const K3: seq<Word> := [0x983e5152, 0xa831c66d, 0xb00327c8, 0xbf597fc7, 0xc6e00bf3, 0xd5a79147, 0x06ca6351, 0x14292967]
  const K4: seq<Word> := [0x27b70a85, 0x2e1b2138, 0x4d2c6dfc, 0x53380d13, 0x650a7354, 0x766a0abb, 0x81c2c92e, 0x92722c85]
  const K5: seq<Word> := [0xa2bfe8a1, 0xa81a664b, 0xc24b8b70, 0xc76c51a3, 0xd192e819, 0xd6990624, 0xf40e3585, 0x106aa070]
  const K6: seq<Word> := [0x19a4c116, 0x1e376c08, 0x2748774c, 0x34b0bcb5, 0x391c0cb3, 0x4ed8aa4a, 0x5b9cca4f, 0x682e6ff3]
  const K7: seq<Word> := [0x748f82ee, 0x78a5636f, 0x84c87814, 0x8cc70208, 0x90befffa, 0xa4506ceb, 0xbef9a3f7, 0xc67178f2]
  const K: seq<Word> := K0 + K1 + K2 + K3 + K4 + K5 + K6 + K7

  // ---- section 4.1.2: the functions ----

  function Xor3(x: Word, y: Word, z: Word): Word { XorWord(XorWord(x, y), z) }

  function Ch(x: Word, y: Word, z: Word): Word { XorWord(AndWord(x, y), AndWord(Complement(x), z)) }

  function Maj(x: Word, y: Word, z: Word): Word { Xor3(AndWord(x, y), AndWord(x, z), AndWord(y, z)) }

  function BigSigma0(x: Word): Word { Xor3(Rotr(x, 2), Rotr(x, 13), Rotr(x, 22)) }

  function BigSigma1(x: Word): Word { Xor3(Rotr(x, 6), Rotr(x, 11), Rotr(x, 25)) }

  function SmallSigma0(x: Word): Word { Xor3(Rotr(x, 7), Rotr(x, 18), ShiftRight(x, 3)) }

  function SmallSigma1(x: Word): Word { Xor3(Rotr(x, 17), Rotr(x, 19), ShiftRight(x, 10)) }

  /** What the loops compute with. They are the same loops whatever these functions are. */
  datatype Functions = Functions(
    add: (Word, Word) -> Word,
    ch: (Word, Word, Word) -> Word,
    maj: (Word, Word, Word) -> Word,
    big0: Word -> Word,
    big1: Word -> Word,
    small0: Word -> Word,
    small1: Word -> Word)

  const FIPS := Functions(Add, Ch, Maj, BigSigma0, BigSigma1, SmallSigma0, SmallSigma1)

  // ---- section 5.1.1: padding ----

  const MAX_BYTES := 0x2000_0000_0000_0000

  /** The n low digits of v to a base, most significant first. */
  function Digits(v: nat, base: nat, n: nat): (r: seq<nat>)
    requires base > 0
    ensures |r| == n && forall i :: 0 <= i < n ==> r[i] < base
  {
    QuotientIsSmaller(v, base);
    if n == 0 then [] else Digits(v / base, base, n - 1) + [v % base]
  }

  /** The fewest zero bytes that bring a message of n bytes and its 0x80 to 56 modulo 64. */
  function ZeroCount(n: nat): (k: nat)
    ensures k < 64 && (n + 1 + k) % 64 == 56
  {
    (119 - n % 64) % 64
  }

  function Zeros(k: nat): (r: seq<Byte>)
    ensures |r| == k && forall i :: 0 <= i < k ==> r[i] == 0
  {
    seq(k, _ => 0)
  }

  /** The size in bits, as eight bytes. */
  function SizeField(n: nat): (r: seq<Byte>)
    ensures |r| == 8
  {
    Digits(8 * n, 256, 8)
  }

  function Pad(m: seq<Byte>): (r: seq<Byte>)
    ensures |r| % 64 == 0 && |r| >= 64
  {
    PaddedLength(|m|, ZeroCount(|m|));
    var front := m + [0x80] + Zeros(ZeroCount(|m|));
    front + SizeField(|m|)
  }

  lemma PaddedLength(n: nat, k: nat)
    requires (n + 1 + k) % 64 == 56
    ensures (n + 1 + k + 8) % 64 == 0
  {}

  lemma ZeroCountIsLeast(n: nat, k: nat)
    requires k <= ZeroCount(n)
    ensures (n + 1 + k) % 64 == 56 <==> k == ZeroCount(n)
  {}

  lemma DigitsSplit(v: nat, base: nat, n: nat)
    requires base > 0 && n > 0 && v < Power(base, n)
    ensures 0 <= v / base < Power(base, n - 1)
    ensures Digits(v, base, n)[..n - 1] == Digits(v / base, base, n - 1) && Digits(v, base, n)[n - 1] == v % base
  {
    QuotientIsSmaller(v, base);
    assert v == base * (v / base) + v % base;
    if v / base >= Power(base, n - 1) { Monotone(base, Power(base, n - 1), v / base); }
  }

  lemma {:induction false} DigitsDetermine(v: nat, w: nat, base: nat, n: nat)
    requires base > 0 && v < Power(base, n) && w < Power(base, n) && Digits(v, base, n) == Digits(w, base, n)
    ensures v == w
    decreases n
  {
    if n > 0 {
      DigitsSplit(v, base, n);
      DigitsSplit(w, base, n);
      var v', w' := v / base, w / base;
      DigitsDetermine(v', w', base, n - 1);
      SameDivision(v, w, base);
    }
  }

  lemma PadEndsWithSize(m: seq<Byte>)
    ensures Pad(m)[|Pad(m)| - 8..] == SizeField(|m|) && |m| <= |Pad(m)| && Pad(m)[..|m|] == m
  {
    var front := m + [0x80] + Zeros(ZeroCount(|m|));
    assert Pad(m) == front + SizeField(|m|);
  }

  lemma MaxBits(n: nat)
    requires n < MAX_BYTES
    ensures 8 * n < Power(256, 8)
  {
    assert Power(256, 4) == 0x1_0000_0000;
    PowerSum(256, 4, 4);
  }

  /** No two messages pad to the same blocks. */
  lemma PaddingIsInjective(a: seq<Byte>, b: seq<Byte>)
    requires |a| < MAX_BYTES && |b| < MAX_BYTES && Pad(a) == Pad(b)
    ensures a == b
  {
    PadEndsWithSize(a);
    PadEndsWithSize(b);
    MaxBits(|a|);
    MaxBits(|b|);
    DigitsDetermine(8 * |a|, 8 * |b|, 256, 8);
  }

  // ---- section 6.2.2: the blocks ----

  function FourBytes(a: nat, b: nat, c: nat, d: nat): nat {
    ((a * 256 + b) * 256 + c) * 256 + d
  }

  /** The t-th word of a block, most significant byte first. */
  function WordAt(block: seq<Byte>, t: nat): Word
    requires 4 * t + 4 <= |block|
  {
    FourBytes(block[4 * t], block[4 * t + 1], block[4 * t + 2], block[4 * t + 3])
  }

  function Sum4(fn: Functions, a: Word, b: Word, c: Word, d: Word): Word { fn.add(fn.add(fn.add(a, b), c), d) }

  /** The message schedule: the words of the block, then each from four before it. */
  function Schedule(fn: Functions, block: seq<Byte>, t: nat): Word
    requires |block| == 64 && t < 64
  {
    if t < 16 then WordAt(block, t)
    else Sum4(fn, fn.small1(Schedule(fn, block, t - 2)), Schedule(fn, block, t - 7),
              fn.small0(Schedule(fn, block, t - 15)), Schedule(fn, block, t - 16))
  }

  datatype Registers = Registers(a: Word, b: Word, c: Word, d: Word, e: Word, f: Word, g: Word, h: Word)

  function Round(fn: Functions, r: Registers, k: Word, w: Word): Registers {
    var t1 := fn.add(Sum4(fn, r.h, fn.big1(r.e), fn.ch(r.e, r.f, r.g), k), w);
    var t2 := fn.add(fn.big0(r.a), fn.maj(r.a, r.b, r.c));
    Registers(fn.add(t1, t2), r.a, r.b, r.c, fn.add(r.d, t1), r.e, r.f, r.g)
  }

  /** The first t rounds; there is one for each constant. */
  function Rounds(fn: Functions, r: Registers, block: seq<Byte>, t: nat): Registers
    requires |block| == 64 && t <= |K|
  {
    if t == 0 then r else Round(fn, Rounds(fn, r, block, t - 1), K[t - 1], Schedule(fn, block, t - 1))
  }

  function Sums(fn: Functions, x: Registers, y: Registers): Registers {
    Registers(fn.add(x.a, y.a), fn.add(x.b, y.b), fn.add(x.c, y.c), fn.add(x.d, y.d),
              fn.add(x.e, y.e), fn.add(x.f, y.f), fn.add(x.g, y.g), fn.add(x.h, y.h))
  }

  const INITIAL := Registers(0x6a09e667, 0xbb67ae85, 0x3c6ef372, 0xa54ff53a, 0x510e527f, 0x9b05688c, 0x1f83d9ab, 0x5be0cd19)

  /** The hash value after the blocks of a padded message. */
  function HashBlocks(fn: Functions, m: seq<Byte>): Registers
    requires |m| % 64 == 0
  {
    if |m| == 0 then INITIAL
    else
      var before := HashBlocks(fn, m[..|m| - 64]);
      Sums(fn, before, Rounds(fn, before, m[|m| - 64..], |K|))
  }

  // ---- the source's loops ----

  /** The source joins the bytes by shifting and or-ing. */
  function LoadBe32(data: seq<Byte>, at: nat): Word
    requires at + 4 <= |data|
  {
    OrWord(OrWord(OrWord(ShiftLeft(data[at], 24), ShiftLeft(data[at + 1], 16)), ShiftLeft(data[at + 2], 8)), data[at + 3])
  }

  lemma PlaceByte(x: nat, y: nat, p: nat, q: nat)
    requires y < 256 && q == 256 * p && p > 0
    ensures (x * 256 + y) * p == x * q + y * p && 0 <= y * p < q && x * q >= 0
  {
    assert x * 256 * p == x * q;
    Monotone(p, y, 255);
  }

  lemma JoinByte(x: nat, y: nat, n: nat)
    requires y < 256 && (x * 256 + y) * Power(2, n) < MODULUS
    ensures x * Power(2, n + 8) < MODULUS
    ensures OrWord(x * Power(2, n + 8), ShiftLeft(y, n)) == (x * 256 + y) * Power(2, n)
  {
    var p, q := Power(2, n), Power(2, n + 8);
    assert q == 256 * p by { assert Power(2, 8) == 256; PowerSum(2, 8, n); }
    PlaceByte(x, y, p, q);
    assert ShiftLeft(y, n) == y * p;
    OrDisjoint(x, y * p, n + 8);
  }

  lemma BytesJoin(a: Byte, b: Byte, c: Byte, d: Byte)
    ensures OrWord(OrWord(OrWord(ShiftLeft(a, 24), ShiftLeft(b, 16)), ShiftLeft(c, 8)), d) == FourBytes(a, b, c, d)
  {
    assert Power(2, 0) == 1 && Power(2, 8) == 256;
    assert Power(2, 16) == 65536 && Power(2, 24) == 16777216 by { PowerSum(2, 8, 8); PowerSum(2, 8, 16); }
    assert ShiftLeft(a, 24) == a * Power(2, 24);
    JoinByte(a, b, 16);
    JoinByte(a * 256 + b, c, 8);
    JoinByte((a * 256 + b) * 256 + c, d, 0);
    assert ShiftLeft(d, 0) == d;
  }

  /** Shifting right by whole digits divides by a power of the base, and a mask takes the last digit. */
  method StoreDigits(value: nat, base: nat, n: nat) returns (r: seq<nat>)
    requires base > 0 && value < Power(base, n)
    ensures r == Digits(value, base, n)
  {
    r := [];
    var left := n;
    QuotientIsUnique(value, Power(base, n), 0, value);
    while left > 0
      invariant 0 <= left <= n
      invariant r == Digits(value / Power(base, left), base, n - left)
    {
      left := left - 1;
      DivideTwice(value, Power(base, left), base);
      r := r + [value / Power(base, left) % base];
    }
  }

  method PadMessage(data: seq<Byte>) returns (padded: seq<Byte>)
    requires |data| < MAX_BYTES
    ensures padded == Pad(data)
  {
    padded := data + [0x80];
    ghost var k, z := 0, ZeroCount(|data|);
    while |padded| % 64 != 56
      invariant k <= z && padded == data + [0x80] + Zeros(k)
      decreases z - k
    {
      ZeroCountIsLeast(|data|, k);
      padded := padded + [0];
      k := k + 1;
    }
    ZeroCountIsLeast(|data|, k);
    MaxBits(|data|);
    var size := StoreDigits(8 * |data|, 256, 8);
    padded := padded + size;
  }

  lemma AddOnce(x: nat, y: nat)
    ensures (x % MODULUS + y) % MODULUS == (x + y) % MODULUS
  {
    var q := x / MODULUS;
    assert x == MODULUS * q + x % MODULUS;
    QuotientIsUnique(x + y, MODULUS, q + (x % MODULUS + y) / MODULUS, (x % MODULUS + y) % MODULUS);
  }

  lemma SumIsModular(a: Word, b: Word, c: Word, d: Word)
    ensures Sum4(FIPS, a, b, c, d) == (a + b + c + d) % MODULUS
  {
    AddOnce(a + b, c);
    AddOnce(a + b + c, d);
  }

  /** The sum does not depend on the order of its terms: the source adds them back to front. */
  ghost predicate AddsInAnyOrder(fn: Functions) {
    forall a, b, c, d :: Sum4(fn, a, b, c, d) == Sum4(fn, d, c, b, a)
  }

  lemma FipsAddsInAnyOrder()
    ensures AddsInAnyOrder(FIPS)
  {
    forall a: Word, b: Word, c: Word, d: Word ensures Sum4(FIPS, a, b, c, d) == Sum4(FIPS, d, c, b, a) {
      SumIsModular(a, b, c, d);
      SumIsModular(d, c, b, a);
    }
  }

  lemma LoadedWord(block: seq<Byte>, t: nat)
    requires 4 * t + 4 <= |block|
    ensures LoadBe32(block, t * 4) == WordAt(block, t)
  {
    BytesJoin(block[4 * t], block[4 * t + 1], block[4 * t + 2], block[4 * t + 3]);
  }

  method LoadWords(block: seq<Byte>, w: array<Word>)
    requires |block| == 64 && w.Length == 64
    modifies w
    ensures forall t :: 0 <= t < 16 ==> w[t] == WordAt(block, t)
  {
    for i := 0 to 16
      invariant forall t :: 0 <= t < i ==> w[t] == WordAt(block, t)
    {
      w[i] := LoadBe32(block, i * 4);
      LoadedWord(block, i);
    }
  }

  method MessageSchedule(fn: Functions, block: seq<Byte>, w: array<Word>)
    requires |block| == 64 && w.Length == 64 && AddsInAnyOrder(fn)
    modifies w
    ensures forall t :: 0 <= t < 64 ==> w[t] == Schedule(fn, block, t)
  {
    LoadWords(block, w);
    for i := 16 to 64
      invariant forall t :: 0 <= t < i ==> w[t] == Schedule(fn, block, t)
    {
      var s0 := fn.small0(w[i - 15]);
      var s1 := fn.small1(w[i - 2]);
      w[i] := Sum4(fn, w[i - 16], s0, w[i - 7], s1);
    }
  }

  method CompressBlock(fn: Functions, h: Registers, block: seq<Byte>) returns (r: Registers)
    requires |block| == 64 && AddsInAnyOrder(fn)
    ensures r == Rounds(fn, h, block, |K|)
  {
    var w := new Word[64];
    MessageSchedule(fn, block, w);
    var a, b, c, d, e, f, g, hh := h.a, h.b, h.c, h.d, h.e, h.f, h.g, h.h;
    for i := 0 to |K|
      invariant Registers(a, b, c, d, e, f, g, hh) == Rounds(fn, h, block, i)
      invariant forall t :: 0 <= t < 64 ==> w[t] == Schedule(fn, block, t)
    {
      var s1 := fn.big1(e);
      var ch := fn.ch(e, f, g);
      var temp1 := fn.add(Sum4(fn, hh, s1, ch, K[i]), w[i]);
      var s0 := fn.big0(a);
      var maj := fn.maj(a, b, c);
      var temp2 := fn.add(s0, maj);
      hh := g;
      g := f;
      f := e;
      e := fn.add(d, temp1);
      d := c;
      c := b;
      b := a;
      a := fn.add(temp1, temp2);
    }
    r := Registers(a, b, c, d, e, f, g, hh);
  }

  lemma WholeBlocks(offset: nat, n: nat)
    requires offset % 64 == 0 && n % 64 == 0 && offset < n
    ensures offset + 64 <= n && (offset + 64) % 64 == 0
  {}

  lemma HashOneMore(fn: Functions, m: seq<Byte>, offset: nat, before: Registers)
    requires offset % 64 == 0 && offset + 64 <= |m| && (offset + 64) % 64 == 0 && before == HashBlocks(fn, m[..offset])
    ensures HashBlocks(fn, m[..offset + 64]) == Sums(fn, before, Rounds(fn, before, m[offset..offset + 64], |K|))
  {
    var upTo := m[..offset + 64];
    assert upTo[..|upTo| - 64] == m[..offset] && upTo[|upTo| - 64..] == m[offset..offset + 64];
  }

  method HashPadded(fn: Functions, padded: seq<Byte>) returns (h: Registers)
    requires |padded| % 64 == 0 && AddsInAnyOrder(fn)
    ensures h == HashBlocks(fn, padded)
  {
    h := INITIAL;
    var offset := 0;
    while offset < |padded|
      invariant 0 <= offset <= |padded| && offset % 64 == 0
      invariant h == HashBlocks(fn, padded[..offset])
    {
      WholeBlocks(offset, |padded|);
      var block := padded[offset..offset + 64];
      var r := CompressBlock(fn, h, block);
      HashOneMore(fn, padded, offset, h);
      h := Sums(fn, h, r);
      offset := offset + 64;
    }
    assert padded[..offset] == padded;
  }

  // ---- the digest ----

  const HEX := "0123456789abcdef"

  function Hex(v: Word): (s: string)
    ensures |s| == 8
  {
    var d := Digits(v, 16, 8);
    seq(8, i requires 0 <= i < 8 => HEX[d[i]])
  }

  function WordsOf(h: Registers): (r: seq<Word>)
    ensures |r| == 8
  {
    [h.a, h.b, h.c, h.d, h.e, h.f, h.g, h.h]
  }

  function HexAll(words: seq<Word>): (s: string)
    ensures |s| == 8 * |words|
  {
    if |words| == 0 then "" else HexAll(words[..|words| - 1]) + Hex(words[|words| - 1])
  }

  /** The digest of a message: 64 hexadecimal digits. */
  function Digest(m: seq<Byte>): (s: string)
    ensures |s| == 64
  {
    HexAll(WordsOf(HashBlocks(FIPS, Pad(m))))
  }

  lemma WordDigits()
    ensures Power(16, 8) == MODULUS
  {
    assert Power(16, 4) == 65536;
    PowerSum(16, 4, 4);
  }

  method StoreHex(words: seq<Word>) returns (digest: string)
    ensures digest == HexAll(words)
  {
    digest := "";
    for i := 0 to |words|
      invariant digest == HexAll(words[..i])
    {
      WordDigits();
      var digits := StoreDigits(words[i], 16, 8);
      assert words[..i + 1][..i] == words[..i];
      digest := digest + seq(8, j requires 0 <= j < 8 => HEX[digits[j]]);
    }
    assert words[..|words|] == words;
  }

  method Sha256Bytes(data: seq<Byte>) returns (digest: string)
    requires |data| < MAX_BYTES
    ensures digest == Digest(data)
  {
    var padded := PadMessage(data);
    FipsAddsInAnyOrder();
    var h := HashPadded(FIPS, padded);
    digest := StoreHex(WordsOf(h));
  }

  lemma HexDetermines(v: Word, w: Word)
    requires Hex(v) == Hex(w)
    ensures v == w
  {
    var a, b := Digits(v, 16, 8), Digits(w, 16, 8);
    forall i | 0 <= i < 8 ensures a[i] == b[i] {
      assert HEX[a[i]] == Hex(v)[i] == Hex(w)[i] == HEX[b[i]];
      HexDigitsDiffer(a[i], b[i]);
    }
    WordDigits();
    DigitsDetermine(v, w, 16, 8);
  }

  lemma HexDigitsDiffer(i: nat, j: nat)
    requires i < 16 && j < 16 && HEX[i] == HEX[j]
    ensures i == j
  {}

  /** A digest shows the whole hash value. */
  lemma {:induction false} DigestDeterminesWords(a: seq<Word>, b: seq<Word>)
    requires HexAll(a) == HexAll(b)
    ensures a == b
  {
    var n := |a|;
    assert |b| == n;
    if n > 0 {
      var x, y := HexAll(a), HexAll(b);
      assert x[..8 * n - 8] == HexAll(a[..n - 1]) && y[..8 * n - 8] == HexAll(b[..n - 1]);
      assert x[8 * n - 8..] == Hex(a[n - 1]) && y[8 * n - 8..] == Hex(b[n - 1]);
      DigestDeterminesWords(a[..n - 1], b[..n - 1]);
      HexDetermines(a[n - 1], b[n - 1]);
      assert a == a[..n - 1] + [a[n - 1]] && b == b[..n - 1] + [b[n - 1]];
    }
  }

  /** Every register is added to its own, modulo 2 to the 32. */
  lemma SumsAddEach(x: Registers, y: Registers)
    ensures Sums(FIPS, x, y) == Registers(
      (x.a + y.a) % MODULUS, (x.b + y.b) % MODULUS, (x.c + y.c) % MODULUS, (x.d + y.d) % MODULUS,
      (x.e + y.e) % MODULUS, (x.f + y.f) % MODULUS, (x.g + y.g) % MODULUS, (x.h + y.h) % MODULUS)
  {}

  predicate IsHexDigit(c: char, v: nat) {
    (v < 10 && c as int == '0' as int + v) || (10 <= v < 16 && c as int == 'a' as int + v - 10)
  }

  lemma {:induction false} DigitsAt(v: nat, base: nat, n: nat, i: nat)
    requires base > 0 && i < n
    ensures Power(base, n - 1 - i) > 0 && Digits(v, base, n)[i] == v / Power(base, n - 1 - i) % base
    decreases n
  {
    QuotientIsSmaller(v, base);
    if i < n - 1 {
      var v' := v / base;
      DigitsAt(v', base, n - 1, i);
      DivideTwice(v, base, Power(base, n - 2 - i));
      assert Power(base, n - 1 - i) == Power(base, n - 2 - i) * base;
    } else {
      assert Power(base, 0) == 1;
    }
  }

  /** The i-th character is the hexadecimal digit of the i-th nibble, from the most significant. */
  lemma HexShowsNibbles(v: Word, i: nat)
    requires i < 8
    ensures IsHexDigit(Hex(v)[i], v / Power(16, 7 - i) % 16)
  {
    DigitsAt(v, 16, 8, i);
  }

  lemma {:induction false} HexAllShowsWords(words: seq<Word>, k: nat)
    requires k < |words|
    ensures HexAll(words)[8 * k..8 * k + 8] == Hex(words[k])
  {
    var n := |words| - 1;
    if k < n {
      HexAllShowsWords(words[..n], k);
      assert HexAll(words)[8 * k..8 * k + 8] == HexAll(words[..n])[8 * k..8 * k + 8];
    }
  }

  /** The digest shows the eight words of the hash value in their order. */
  lemma DigestShowsHash(m: seq<Byte>)
    ensures var h, s := HashBlocks(FIPS, Pad(m)), Digest(m);
            && s[..8] == Hex(h.a) && s[8..16] == Hex(h.b) && s[16..24] == Hex(h.c) && s[24..32] == Hex(h.d)
            && s[32..40] == Hex(h.e) && s[40..48] == Hex(h.f) && s[48..56] == Hex(h.g) && s[56..] == Hex(h.h)
  {
    RegistersShow(HashBlocks(FIPS, Pad(m)));
  }

  lemma RegistersShow(h: Registers)
    ensures var s := HexAll(WordsOf(h));
            && s[..8] == Hex(h.a) && s[8..16] == Hex(h.b) && s[16..24] == Hex(h.c) && s[24..32] == Hex(h.d)
            && s[32..40] == Hex(h.e) && s[40..48] == Hex(h.f) && s[48..56] == Hex(h.g) && s[56..] == Hex(h.h)
  {
    var words := WordsOf(h);
    forall k | 0 <= k < 8 ensures HexAll(words)[8 * k..8 * k + 8] == Hex(words[k]) {
      HexAllShowsWords(words, k);
    }
    var s := HexAll(words);
    assert s[0..8] == Hex(words[0]) && s[8..16] == Hex(words[1]) && s[16..24] == Hex(words[2]) && s[24..32] == Hex(words[3]);
    assert s[32..40] == Hex(words[4]) && s[40..48] == Hex(words[5]) && s[48..56] == Hex(words[6]) && s[56..64] == Hex(words[7]);
  }
}
