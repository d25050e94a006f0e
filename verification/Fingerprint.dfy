/** The fingerprint of a profile's configuration: a digest of its version, file name and contents. */
module Fingerprint {
  import opened Words
  import Sha256

  const NUL: Byte := 0
  const EQUALS: Byte := 0x3d
  const VERSION: seq<Byte> := [0x76, 0x65, 0x72, 0x73, 0x69, 0x6f, 0x6e]
  const MAIN: seq<Byte> := [0x6d, 0x61, 0x69, 0x6e]

  /** The keys are words, in ASCII, and an equals sign follows them. */
  lemma KeysAreWords(i: nat)
    ensures |VERSION| == |"version"| && (i < |VERSION| ==> VERSION[i] == "version"[i] as int)
    ensures |MAIN| == |"main"| && (i < |MAIN| ==> MAIN[i] == "main"[i] as int)
    ensures EQUALS == '=' as int && NUL == '\0' as int
  {}

  function Record(key: seq<Byte>, value: seq<Byte>): seq<Byte> {
    key + [EQUALS] + value + [NUL]
  }

  function Encoding(version: seq<Byte>, fileName: seq<Byte>, contents: seq<Byte>): seq<Byte> {
    Record(VERSION, version) + Record(MAIN, fileName) + (contents + [NUL])
  }

  method AppendRecord(data: seq<Byte>, key: seq<Byte>, value: seq<Byte>) returns (r: seq<Byte>)
    ensures r == data + Record(key, value)
  {
    r := data;
    r := r + key;
    r := r + [EQUALS];
    r := r + value;
    r := r + [NUL];
  }

  method ComputeConfigFingerprint(version: seq<Byte>, fileName: seq<Byte>, contents: seq<Byte>) returns (digest: string)
    requires |Encoding(version, fileName, contents)| < Sha256.MAX_BYTES
    ensures digest == Sha256.Digest(Encoding(version, fileName, contents))
  {
    var data := AppendRecord([], VERSION, version);
    data := AppendRecord(data, MAIN, fileName);
    data := data + contents;
    data := data + [NUL];
    assert data == Encoding(version, fileName, contents);
    digest := Sha256.Sha256Bytes(data);
  }

  /** A record ends at its first zero byte. */
  lemma RecordsSplit(key: seq<Byte>, a: seq<Byte>, b: seq<Byte>, x: seq<Byte>, y: seq<Byte>)
    requires NUL !in a && NUL !in b && Record(key, a) + x == Record(key, b) + y
    ensures a == b && x == y
  {
    var k := |key| + 1;
    var l, r := Record(key, a) + x, Record(key, b) + y;
    assert l[k + |a|] == NUL && r[k + |b|] == NUL;
    assert forall i :: 0 <= i < |a| ==> l[k + i] == a[i];
    assert forall i :: 0 <= i < |b| ==> r[k + i] == b[i];
    assert |a| == |b|;
    assert a == l[k..k + |a|] && b == r[k..k + |b|];
    assert x == l[k + |a| + 1..] && y == r[k + |b| + 1..];
  }

  /** What is hashed determines what it was made from. */
  lemma EncodingIsInjective(v: seq<Byte>, f: seq<Byte>, c: seq<Byte>, v': seq<Byte>, f': seq<Byte>, c': seq<Byte>)
    requires NUL !in v && NUL !in f && NUL !in v' && NUL !in f'
    requires Encoding(v, f, c) == Encoding(v', f', c')
    ensures v == v' && f == f' && c == c'
  {
    var rest, rest' := Record(MAIN, f) + (c + [NUL]), Record(MAIN, f') + (c' + [NUL]);
    assert Encoding(v, f, c) == Record(VERSION, v) + rest && Encoding(v', f', c') == Record(VERSION, v') + rest';
    RecordsSplit(VERSION, v, v', rest, rest');
    RecordsSplit(MAIN, f, f', c + [NUL], c' + [NUL]);
    assert c == (c + [NUL])[..|c|] && c' == (c' + [NUL])[..|c'|];
  }

  /** A version with a zero byte can pass for a version, a file name and the start of the contents. */
  lemma NulInVersionCollides(x: seq<Byte>, y: seq<Byte>, z: seq<Byte>, c: seq<Byte>)
    ensures Encoding(x + [NUL] + MAIN + [EQUALS] + y, z, c) == Encoding(x, y, Record(MAIN, z) + c)
  {
    var v := x + [NUL] + MAIN + [EQUALS] + y;
    assert Record(VERSION, v) == Record(VERSION, x) + Record(MAIN, y);
  }
}
