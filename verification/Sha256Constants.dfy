/** The constants of SHA-256 are what sections 4.2.2 and 5.3.3 of FIPS 180-4 say they are. */
module Sha256Constants {
  import opened Words
  import opened Sha256

  // ---- the first primes ----

  const PRIMES0: seq<nat> := [2, 3, 5, 7, 11, 13, 17, 19]
  const PRIMES1: seq<nat> := [23, 29, 31, 37, 41, 43, 47, 53]
  const PRIMES2: seq<nat> := [59, 61, 67, 71, 73, 79, 83, 89]
  const PRIMES3: seq<nat> := [97, 101, 103, 107, 109, 113, 127, 131]
  const PRIMES4: seq<nat> := [137, 139, 149, 151, 157, 163, 167, 173]
  const PRIMES5: seq<nat> := [179, 181, 191, 193, 197, 199, 211, 223]
  const PRIMES6: seq<nat> := [227, 229, 233, 239, 241, 251, 257, 263]
  const PRIMES7: seq<nat> := [269, 271, 277, 281, 283, 293, 307, 311]

  ghost predicate Prime(n: nat) {
    n >= 2 && forall d :: 2 <= d < n ==> n % d != 0
  }

  predicate Spared(n: nat, q: nat)
    requires q > 0
  {
    n % q != 0 || n == q
  }

  /** No prime up to 17 divides n, unless it is n. */
  predicate Undivided(n: nat) {
    Spared(n, 2) && Spared(n, 3) && Spared(n, 5) && Spared(n, 7) && Spared(n, 11) && Spared(n, 13) && Spared(n, 17)
  }

  lemma PrimeIsSpared(n: nat, q: nat)
    requires Prime(n) && q >= 2
    ensures Spared(n, q)
  {}

  lemma PrimeIsUndivided(n: nat)
    requires Prime(n)
    ensures Undivided(n)
  {
    PrimeIsSpared(n, 2);
    PrimeIsSpared(n, 3);
    PrimeIsSpared(n, 5);
    PrimeIsSpared(n, 7);
    PrimeIsSpared(n, 11);
    PrimeIsSpared(n, 13);
    PrimeIsSpared(n, 17);
  }

  /** What 2, 3 and 5 do not divide leaves one of eight remainders by 30. */
  lemma Wheel(n: nat, k: nat, r: nat)
    requires n == 30 * k + r && r < 30 && n % 2 != 0 && n % 3 != 0 && n % 5 != 0
    ensures r == 1 || r == 7 || r == 11 || r == 13 || r == 17 || r == 19 || r == 23 || r == 29
  {
    assert r % 2 != 0 && r % 3 != 0 && r % 5 != 0;
  }

  lemma ListedBelow120(n: nat)
    requires 2 <= n < 120 && Undivided(n)
    ensures n in PRIMES0 || n in PRIMES1 || n in PRIMES2 || n in PRIMES3
  {
    if n > 5 { Wheel(n, n / 30, n % 30); }
  }

  lemma ListedBelow210(n: nat)
    requires 120 <= n < 210 && Undivided(n)
    ensures n in PRIMES3 || n in PRIMES4 || n in PRIMES5
  {
    Wheel(n, n / 30, n % 30);
  }

  lemma ListedBelow312(n: nat)
    requires 210 <= n <= 311 && Undivided(n)
    ensures n in PRIMES5 || n in PRIMES6 || n in PRIMES7
  {
    Wheel(n, n / 30, n % 30);
  }

  /** The rows hold every prime up to the last of them. */
  lemma EveryPrimeIsListed(n: nat)
    requires Prime(n) && n <= PRIMES7[7]
    ensures || n in PRIMES0 || n in PRIMES1 || n in PRIMES2 || n in PRIMES3
            || n in PRIMES4 || n in PRIMES5 || n in PRIMES6 || n in PRIMES7
  {
    PrimeIsUndivided(n);
    if n < 120 { ListedBelow120(n); } else if n < 210 { ListedBelow210(n); } else { ListedBelow312(n); }
  }

  // ---- undivided numbers below 19 * 19 are prime ----

  lemma DividesToo(n: nat, s: nat, q: nat)
    requires s > 0 && q > 0 && n % s == 0 && s % q == 0
    ensures n % q == 0
  {
    var m, t := n / s, s / q;
    assert n == s * m && s == q * t;
    assert n == q * (t * m);
    QuotientIsUnique(n, q, t * m, 0);
  }

  lemma NoSmallDivisor(n: nat, s: nat)
    requires Undivided(n) && 2 <= s <= 18 && s < n
    ensures n % s != 0
  {
    if n % s == 0 {
      if s % 2 == 0 { DividesToo(n, s, 2); }
      else if s % 3 == 0 { DividesToo(n, s, 3); }
      else if s % 5 == 0 { DividesToo(n, s, 5); }
    }
  }

  lemma OtherDivisor(n: nat, d: nat)
    requires 2 <= d < n && n % d == 0
    ensures 2 <= n / d < n && n % (n / d) == 0 && (d <= 18 || n / d <= 18 || n >= 19 * 19)
  {
    var e := n / d;
    assert n == d * e;
    if e <= 1 { Monotone(d, e, 1); }
    QuotientIsUnique(n, e, d, 0);
    if d >= 19 && e >= 19 { Monotone(d, 19, e); Monotone(19, 19, d); }
    Monotone(e, 2, d);
  }

  lemma UndividedIsPrime(n: nat)
    requires 2 <= n <= 311 && Undivided(n)
    ensures Prime(n)
  {
    forall d | 2 <= d < n ensures n % d != 0 {
      if n % d == 0 {
        OtherDivisor(n, d);
        if d <= 18 { NoSmallDivisor(n, d); } else { NoSmallDivisor(n, n / d); }
      }
    }
  }

  lemma EightRows<T>(a: seq<T>, b: seq<T>, c: seq<T>, d: seq<T>, e: seq<T>, f: seq<T>, g: seq<T>, h: seq<T>, i: nat)
    requires |a| == |b| == |c| == |d| == |e| == |f| == |g| == |h| == 8 && i < 8
    ensures var all := a + b + c + d + e + f + g + h;
            && |all| == 64 && all[i] == a[i] && all[8 + i] == b[i] && all[16 + i] == c[i] && all[24 + i] == d[i]
            && all[32 + i] == e[i] && all[40 + i] == f[i] && all[48 + i] == g[i] && all[56 + i] == h[i]
  {}

  // ---- roots ----

  /** n is the cube root of p in units of 2 to the -32, rounded down. */
  predicate IsCubeRoot(p: nat, n: nat) {
    n * n * n <= p * 0x1_0000_0000_0000_0000_0000_0000 < (n + 1) * (n + 1) * (n + 1)
  }

  predicate IsSquareRoot(p: nat, n: nat) {
    n * n <= p * 0x1_0000_0000_0000_0000 < (n + 1) * (n + 1)
  }

  /** The first 32 bits of the fractional part of the cube root. */
  ghost predicate IsCubeFraction(p: nat, k: Word) {
    exists n: nat :: IsCubeRoot(p, n) && n % MODULUS == k
  }

  ghost predicate IsSquareFraction(p: nat, k: Word) {
    exists n: nat :: IsSquareRoot(p, n) && n % MODULUS == k
  }

  lemma CubeFraction(p: nat, n: nat, k: Word)
    requires IsCubeRoot(p, n) && n % MODULUS == k
    ensures IsCubeFraction(p, k)
  {}

  lemma SquareFraction(p: nat, n: nat, k: Word)
    requires IsSquareRoot(p, n) && n % MODULUS == k
    ensures IsSquareFraction(p, k)
  {}

  lemma Row0(i: nat)
    requires i < 8
    ensures Prime(PRIMES0[i]) && IsCubeFraction(PRIMES0[i], K0[i])
    ensures if i > 0 then PRIMES0[i - 1] < PRIMES0[i] else PRIMES0[0] == 2
  {
    UndividedIsPrime(PRIMES0[i]);
    CubeFraction(2, 0x1_428a_2f98, 0x428a2f98);
    CubeFraction(3, 0x1_7137_4491, 0x71374491);
    CubeFraction(5, 0x1_b5c0_fbcf, 0xb5c0fbcf);
    CubeFraction(7, 0x1_e9b5_dba5, 0xe9b5dba5);
    CubeFraction(11, 0x2_3956_c25b, 0x3956c25b);
    CubeFraction(13, 0x2_59f1_11f1, 0x59f111f1);
    CubeFraction(17, 0x2_923f_82a4, 0x923f82a4);
    CubeFraction(19, 0x2_ab1c_5ed5, 0xab1c5ed5);
  }

  lemma Row1(i: nat)
    requires i < 8
    ensures Prime(PRIMES1[i]) && IsCubeFraction(PRIMES1[i], K1[i])
    ensures if i > 0 then PRIMES1[i - 1] < PRIMES1[i] else PRIMES1[0] > PRIMES0[7]
  {
    UndividedIsPrime(PRIMES1[i]);
    CubeFraction(23, 0x2_d807_aa98, 0xd807aa98);
    CubeFraction(29, 0x3_1283_5b01, 0x12835b01);
    CubeFraction(31, 0x3_2431_85be, 0x243185be);
    CubeFraction(37, 0x3_550c_7dc3, 0x550c7dc3);
    CubeFraction(41, 0x3_72be_5d74, 0x72be5d74);
    CubeFraction(43, 0x3_80de_b1fe, 0x80deb1fe);
    CubeFraction(47, 0x3_9bdc_06a7, 0x9bdc06a7);
    CubeFraction(53, 0x3_c19b_f174, 0xc19bf174);
  }

  lemma Row2(i: nat)
    requires i < 8
    ensures Prime(PRIMES2[i]) && IsCubeFraction(PRIMES2[i], K2[i])
    ensures if i > 0 then PRIMES2[i - 1] < PRIMES2[i] else PRIMES2[0] > PRIMES1[7]
  {
    UndividedIsPrime(PRIMES2[i]);
    CubeFraction(59, 0x3_e49b_69c1, 0xe49b69c1);
    CubeFraction(61, 0x3_efbe_4786, 0xefbe4786);
    CubeFraction(67, 0x4_0fc1_9dc6, 0x0fc19dc6);
    CubeFraction(71, 0x4_240c_a1cc, 0x240ca1cc);
    CubeFraction(73, 0x4_2de9_2c6f, 0x2de92c6f);
    CubeFraction(79, 0x4_4a74_84aa, 0x4a7484aa);
    CubeFraction(83, 0x4_5cb0_a9dc, 0x5cb0a9dc);
    CubeFraction(89, 0x4_76f9_88da, 0x76f988da);
  }

  lemma Row3(i: nat)
    requires i < 8
    ensures Prime(PRIMES3[i]) && IsCubeFraction(PRIMES3[i], K3[i])
    ensures if i > 0 then PRIMES3[i - 1] < PRIMES3[i] else PRIMES3[0] > PRIMES2[7]
  {
    UndividedIsPrime(PRIMES3[i]);
    CubeFraction(97, 0x4_983e_5152, 0x983e5152);
    CubeFraction(101, 0x4_a831_c66d, 0xa831c66d);
    CubeFraction(103, 0x4_b003_27c8, 0xb00327c8);
    CubeFraction(107, 0x4_bf59_7fc7, 0xbf597fc7);
    CubeFraction(109, 0x4_c6e0_0bf3, 0xc6e00bf3);
    CubeFraction(113, 0x4_d5a7_9147, 0xd5a79147);
    CubeFraction(127, 0x5_06ca_6351, 0x06ca6351);
    CubeFraction(131, 0x5_1429_2967, 0x14292967);
  }

  lemma Row4(i: nat)
    requires i < 8
    ensures Prime(PRIMES4[i]) && IsCubeFraction(PRIMES4[i], K4[i])
    ensures if i > 0 then PRIMES4[i - 1] < PRIMES4[i] else PRIMES4[0] > PRIMES3[7]
  {
    UndividedIsPrime(PRIMES4[i]);
    CubeFraction(137, 0x5_27b7_0a85, 0x27b70a85);
    CubeFraction(139, 0x5_2e1b_2138, 0x2e1b2138);
    CubeFraction(149, 0x5_4d2c_6dfc, 0x4d2c6dfc);
    CubeFraction(151, 0x5_5338_0d13, 0x53380d13);
    CubeFraction(157, 0x5_650a_7354, 0x650a7354);
    CubeFraction(163, 0x5_766a_0abb, 0x766a0abb);
    CubeFraction(167, 0x5_81c2_c92e, 0x81c2c92e);
    CubeFraction(173, 0x5_9272_2c85, 0x92722c85);
  }

  lemma Row5(i: nat)
    requires i < 8
    ensures Prime(PRIMES5[i]) && IsCubeFraction(PRIMES5[i], K5[i])
    ensures if i > 0 then PRIMES5[i - 1] < PRIMES5[i] else PRIMES5[0] > PRIMES4[7]
  {
    UndividedIsPrime(PRIMES5[i]);
    CubeFraction(179, 0x5_a2bf_e8a1, 0xa2bfe8a1);
    CubeFraction(181, 0x5_a81a_664b, 0xa81a664b);
    CubeFraction(191, 0x5_c24b_8b70, 0xc24b8b70);
    CubeFraction(193, 0x5_c76c_51a3, 0xc76c51a3);
    CubeFraction(197, 0x5_d192_e819, 0xd192e819);
    CubeFraction(199, 0x5_d699_0624, 0xd6990624);
    CubeFraction(211, 0x5_f40e_3585, 0xf40e3585);
    CubeFraction(223, 0x6_106a_a070, 0x106aa070);
  }

  lemma Row6(i: nat)
    requires i < 8
    ensures Prime(PRIMES6[i]) && IsCubeFraction(PRIMES6[i], K6[i])
    ensures if i > 0 then PRIMES6[i - 1] < PRIMES6[i] else PRIMES6[0] > PRIMES5[7]
  {
    UndividedIsPrime(PRIMES6[i]);
    CubeFraction(227, 0x6_19a4_c116, 0x19a4c116);
    CubeFraction(229, 0x6_1e37_6c08, 0x1e376c08);
    CubeFraction(233, 0x6_2748_774c, 0x2748774c);
    CubeFraction(239, 0x6_34b0_bcb5, 0x34b0bcb5);
    CubeFraction(241, 0x6_391c_0cb3, 0x391c0cb3);
    CubeFraction(251, 0x6_4ed8_aa4a, 0x4ed8aa4a);
    CubeFraction(257, 0x6_5b9c_ca4f, 0x5b9cca4f);
    CubeFraction(263, 0x6_682e_6ff3, 0x682e6ff3);
  }

  lemma Row7(i: nat)
    requires i < 8
    ensures Prime(PRIMES7[i]) && IsCubeFraction(PRIMES7[i], K7[i])
    ensures if i > 0 then PRIMES7[i - 1] < PRIMES7[i] else PRIMES7[0] > PRIMES6[7]
  {
    UndividedIsPrime(PRIMES7[i]);
    CubeFraction(269, 0x6_748f_82ee, 0x748f82ee);
    CubeFraction(271, 0x6_78a5_636f, 0x78a5636f);
    CubeFraction(277, 0x6_84c8_7814, 0x84c87814);
    CubeFraction(281, 0x6_8cc7_0208, 0x8cc70208);
    CubeFraction(283, 0x6_90be_fffa, 0x90befffa);
    CubeFraction(293, 0x6_a450_6ceb, 0xa4506ceb);
    CubeFraction(307, 0x6_bef9_a3f7, 0xbef9a3f7);
    CubeFraction(311, 0x6_c671_78f2, 0xc67178f2);
  }

  /** The round constants are the fractional parts of the cube roots of the first 64 primes, row by row. */
  lemma RoundConstantsAreCubeRoots(i: nat)
    requires i < 8
    ensures IsCubeFraction(PRIMES0[i], K[i]) && IsCubeFraction(PRIMES1[i], K[8 + i])
    ensures IsCubeFraction(PRIMES2[i], K[16 + i]) && IsCubeFraction(PRIMES3[i], K[24 + i])
    ensures IsCubeFraction(PRIMES4[i], K[32 + i]) && IsCubeFraction(PRIMES5[i], K[40 + i])
    ensures IsCubeFraction(PRIMES6[i], K[48 + i]) && IsCubeFraction(PRIMES7[i], K[56 + i])
  {
    EightRows(K0, K1, K2, K3, K4, K5, K6, K7, i);
    Row0(i); Row1(i); Row2(i); Row3(i); Row4(i); Row5(i); Row6(i); Row7(i);
  }

  /** The initial hash value holds the fractional parts of the square roots of the first eight. */
  lemma InitialValueIsSquareRoots()
    ensures IsSquareFraction(PRIMES0[0], INITIAL.a) && IsSquareFraction(PRIMES0[1], INITIAL.b)
    ensures IsSquareFraction(PRIMES0[2], INITIAL.c) && IsSquareFraction(PRIMES0[3], INITIAL.d)
    ensures IsSquareFraction(PRIMES0[4], INITIAL.e) && IsSquareFraction(PRIMES0[5], INITIAL.f)
    ensures IsSquareFraction(PRIMES0[6], INITIAL.g) && IsSquareFraction(PRIMES0[7], INITIAL.h)
  {
    SquareFraction(2, 0x1_6a09_e667, 0x6a09e667);
    SquareFraction(3, 0x1_bb67_ae85, 0xbb67ae85);
    SquareFraction(5, 0x2_3c6e_f372, 0x3c6ef372);
    SquareFraction(7, 0x2_a54f_f53a, 0xa54ff53a);
    SquareFraction(11, 0x3_510e_527f, 0x510e527f);
    SquareFraction(13, 0x3_9b05_688c, 0x9b05688c);
    SquareFraction(17, 0x4_1f83_d9ab, 0x1f83d9ab);
    SquareFraction(19, 0x4_5be0_cd19, 0x5be0cd19);
  }
}
