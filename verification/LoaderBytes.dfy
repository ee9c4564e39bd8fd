/** Little-endian byte memories: the stack, the context and the data blob of a loader program. */
module LoaderBytes {
  type byte = x: int | 0 <= x < 256
  type Bytes = seq<byte>

  const TWO32: nat := 0x1_0000_0000
  const TWO64: nat := 0x1_0000_0000_0000_0000

  type int32 = x: int | -0x8000_0000 <= x < 0x8000_0000
  type int64 = x: int | -0x8000_0000_0000_0000 <= x < 0x8000_0000_0000_0000

  // The two's complement bit pattern of a signed 64-bit value, read as unsigned.
  function U64(v: int): nat {
    v % TWO64
  }

  // The signed reading of a 64-bit pattern.
  function S64(v: nat): int {
    var u := v % TWO64;
    if u < 0x8000_0000_0000_0000 then u else u - TWO64
  }

  function Zeros(n: nat): (s: Bytes)
    ensures |s| == n
    ensures forall i | 0 <= i < n :: s[i] == 0
  {
    seq(n, i => 0)
  }

  function LittleEndian(v: nat, n: nat): (s: Bytes)
    ensures |s| == n
  {
    if n == 0 then [] else [v % 256] + LittleEndian(v / 256, n - 1)
  }

  function FromLittleEndian(s: Bytes): nat {
    if s == [] then 0 else s[0] + 256 * FromLittleEndian(s[1..])
  }

  function Pow256(n: nat): (p: nat)
    ensures p > 0
  {
    if n == 0 then 1 else 256 * Pow256(n - 1)
  }

  lemma ModSplit(v: nat, m: nat)
    requires m > 0
    ensures v % (256 * m) == v % 256 + 256 * (v / 256 % m)
  {
    var q, r := v / 256, v % 256;
    var a, b := q / m, q % m;
    assert v == 256 * q + r;
    assert q == m * a + b;
    calc {
      v;
      256 * (m * a + b) + r;
      256 * m * a + (256 * b + r);
    }
    assert 0 <= 256 * b + r < 256 * m;
    assert (256 * m) * a == 256 * m * a;
    ModUnique(v, 256 * m, a, 256 * b + r);
  }

  lemma ModUnique(v: nat, m: nat, q: int, r: nat)
    requires 0 <= r < m && v == m * q + r
    ensures v % m == r && v / m == q
  {
    var q', r' := v / m, v % m;
    assert v == m * q' + r';
    assert m * (q - q') == r' - r;
    if q > q' {
      assert m * (q - q') >= m by { MulMono(m, q - q'); }
    } else if q < q' {
      assert m * (q' - q) >= m by { MulMono(m, q' - q); }
    }
  }

  lemma MulMono(m: nat, k: int)
    requires k >= 1
    ensures m * k >= m
  {
  }

  // Reading back n bytes gives the value modulo 256^n.
  lemma {:induction false} ReadBack(v: nat, n: nat)
    ensures FromLittleEndian(LittleEndian(v, n)) == v % Pow256(n)
  {
    if n > 0 {
      ReadBack(v / 256, n - 1);
      ModSplit(v, Pow256(n - 1));
      assert LittleEndian(v, n)[1..] == LittleEndian(v / 256, n - 1);
    }
  }

  predicate InRange(b: Bytes, off: int, n: nat) {
    0 <= off && off + n <= |b|
  }

  // The unsigned value of the n bytes at off; 0 when they are not all inside.
  function Get(b: Bytes, off: int, n: nat): nat {
    if InRange(b, off, n) then FromLittleEndian(b[off..off + n]) else 0
  }

  // Overwrites bytes from off on; nothing changes when they are not all inside.
  function Put(b: Bytes, off: int, bs: Bytes): (r: Bytes)
    ensures |r| == |b|
  {
    if InRange(b, off, |bs|) then b[..off] + bs + b[off + |bs|..] else b
  }

  lemma GetPutSame(b: Bytes, off: int, bs: Bytes)
    requires InRange(b, off, |bs|)
    ensures Put(b, off, bs)[off..off + |bs|] == bs
  {
  }

  lemma GetPutOther(b: Bytes, off: int, bs: Bytes, at: int, n: nat)
    requires InRange(b, at, n)
    requires at + n <= off || off + |bs| <= at
    ensures Put(b, off, bs)[at..at + n] == b[at..at + n]
  {
  }

  lemma {:induction false} FromBound(s: Bytes)
    ensures FromLittleEndian(s) < Pow256(|s|)
  {
    if s != [] {
      FromBound(s[1..]);
    }
  }

  lemma Word(b: Bytes, off: int)
    ensures Get(b, off, 4) < TWO32
  {
    if InRange(b, off, 4) {
      FromBound(b[off..off + 4]);
      assert Pow256(4) == TWO32;
    }
  }
}
