/** Printing a bitfield: 128-bit shifts made of shifts of two 64-bit words, on a little-endian machine,
    against the plain value of the bits. */
module Bitfield {
  import opened Powers

  // --- 64-bit words

  function Shl(x: nat, k: nat): nat
    requires k < 64
  {
    hide Pow2;
    x * Pow2(k) % TWO64
  }

  function Shr(x: nat, k: nat): nat
    requires k < 64
  {
    hide Pow2;
    x / Pow2(k)
  }

  // Bitwise or.
  function Or(a: nat, b: nat): nat
    decreases a + b
  {
    if a == 0 && b == 0 then 0 else (if a % 2 == 1 || b % 2 == 1 then 1 else 0) + 2 * Or(a / 2, b / 2)
  }

  // Where the bits do not overlap, or is addition.
  lemma {:induction false} OrIsSum(a: nat, b: nat, k: nat)
    requires b < Pow2(k)
    ensures Or(a * Pow2(k), b) == a * Pow2(k) + b
    decreases k
  {
    if k == 0 {
      assert a * Pow2(0) == a && b == 0;
      OrNothing(a);
    } else {
      var p := Pow2(k - 1);
      assert a * Pow2(k) == 2 * (a * p);
      OrIsSum(a, b / 2, k - 1);
      if a * Pow2(k) != 0 || b != 0 {
        assert a * Pow2(k) / 2 == a * p && a * Pow2(k) % 2 == 0;
      }
    }
  }

  lemma {:induction false} OrNothing(a: nat)
    ensures Or(a, 0) == a
  {
    if a > 0 {
      OrNothing(a / 2);
    }
  }

  // --- division by powers

  lemma DivMod(x: int, m: int)
    requires m > 0
    ensures x == x / m * m + x % m && 0 <= x % m < m
  {
  }

  lemma MulLess(q: int, n: int, m: int)
    requires m > 0 && q < n
    ensures q * m + m <= n * m
  {
    assert (n - q - 1) * m >= 0;
  }

  // Dividing by m and then by n, and what remains.
  lemma DivTwice(x: nat, m: nat, n: nat)
    requires m > 0 && n > 0
    ensures m * n > 0 && x / (m * n) == x / m / n
    ensures x % (m * n) / m == x / m % n && x % (m * n) % m == x % m
  {
    var q := x / m;
    DivMod(x, m);
    DivMod(q, n);
    var r := q % n * m + x % m;
    MulLess(q % n, n, m);
    assert x == q / n * n * m + q % n * m + x % m;
    assert q / n * n * m == q / n * (m * n);
    assert n * m == m * n;
    DivModIs(x, m * n, q / n, r);
    DivModIs(r, m, q % n, x % m);
  }

  // Multiples: the common factor can be taken out.
  lemma ModFactor(x: nat, m: nat, n: nat)
    requires m > 0 && n > 0
    ensures m * n > 0 && x * m % (m * n) == x % n * m
  {
    DivMod(x, n);
    MulLess(x % n, n, m);
    assert x * m == x / n * n * m + x % n * m;
    assert x / n * n * m == x / n * (m * n);
    assert n * m == m * n;
    DivModIs(x * m, m * n, x / n, x % n * m);
  }

  // --- the two shifts, each on two words

  // The 128-bit number in two words.
  function Wide(upper: nat, lower: nat): nat {
    upper * TWO64 + lower
  }

  lemma Pow128()
    ensures Pow2(128) == TWO64 * TWO64
  {
    Pow64();
    Pow2Add(64, 64);
  }

  // The bits that a left shift moves out of a word.
  lemma Carry(x: nat, k: nat)
    requires 0 < k < 64 && x < TWO64
    ensures x * Pow2(k) == Shr(x, 64 - k) * TWO64 + Shl(x, k)
    ensures Shr(x, 64 - k) < Pow2(k)
  {
    hide Pow2;
    var p, r := Pow2(k), Pow2(64 - k);
    Pow64();
    Pow2Add(k, 64 - k);
    DivMod(x * p, p * r);
    DivTwice(x * p, p, r);
    DivModIs(x * p, p, x, 0);
    BelowQuotient(x, r, p);
  }

  lemma BelowQuotient(x: nat, r: nat, p: nat)
    requires r > 0 && x < p * r
    ensures x / r < p
  {
    DivMod(x, r);
    MulSign(x / r - p, r);
    assert (x / r - p) * r == x / r * r - p * r;
  }

  // A left shift of one word keeps its low bits and leaves room below them.
  lemma ShlIs(x: nat, k: nat)
    requires k < 64
    ensures Shl(x, k) == x % Pow2(64 - k) * Pow2(k) && Shl(x, k) < TWO64
  {
    hide Pow2;
    Pow64();
    Pow2Add(k, 64 - k);
    ModFactor(x, Pow2(k), Pow2(64 - k));
  }

  lemma {:induction false} OrSym(a: nat, b: nat)
    ensures Or(a, b) == Or(b, a)
    decreases a + b
  {
    if a != 0 || b != 0 {
      OrSym(a / 2, b / 2);
    }
  }

  function LeftWords(upper: nat, lower: nat, left: nat): (nat, nat)
    requires 0 < left < 128
  {
    if left >= 64 then (Shl(lower, left - 64), 0)
    else (Or(Shl(upper, left), Shr(lower, 64 - left)), Shl(lower, left))
  }

  function RightWords(upper: nat, lower: nat, right: nat): (nat, nat)
    requires 0 < right < 128
  {
    if right >= 64 then (0, Shr(upper, right - 64))
    else (Shr(upper, right), Or(Shr(lower, right), Shl(upper, 64 - right)))
  }

  // Shifting the two words left is multiplying the 128-bit number.
  lemma LeftIs(upper: nat, lower: nat, left: nat)
    requires 0 < left < 128 && upper < TWO64 && lower < TWO64
    ensures var (u, l) := LeftWords(upper, lower, left);
      u < TWO64 && l < TWO64 && Wide(u, l) == Wide(upper, lower) * Pow2(left) % (TWO64 * TWO64)
  {
    hide Pow2, Shl, Shr, Or, Wide;
    if left < 64 {
      LeftNear(upper, lower, left);
    } else {
      LeftAcross(upper, lower, left - 64);
    }
  }

  // By less than a word: the carry goes into the upper word.
  lemma LeftNear(upper: nat, lower: nat, left: nat)
    requires 0 < left < 64 && upper < TWO64 && lower < TWO64
    ensures var u, l := Or(Shl(upper, left), Shr(lower, 64 - left)), Shl(lower, left);
      u < TWO64 && l < TWO64 && Wide(u, l) == Wide(upper, lower) * Pow2(left) % (TWO64 * TWO64)
  {
    hide Pow2, Shl, Shr, Or, Wide;
    var c := Shr(lower, 64 - left);
    ShlIs(upper, left);
    ShlIs(lower, left);
    Carry(upper, left);
    Carry(lower, left);
    OrIsSum(upper % Pow2(64 - left), c, left);
    LeftFits(upper, c, left);
    LeftSum(upper, lower, Pow2(left), Shr(upper, 64 - left), Shl(upper, left), c, Shl(lower, left));
  }

  // By a word or more: only the lower word is left.
  lemma LeftAcross(upper: nat, lower: nat, k: nat)
    requires k < 64 && upper < TWO64 && lower < TWO64
    ensures Shl(lower, k) < TWO64 && Wide(Shl(lower, k), 0) == Wide(upper, lower) * Pow2(64 + k) % (TWO64 * TWO64)
  {
    hide Pow2, Shl, Wide;
    Pow64();
    Pow2Add(64, k);
    ShlIs(lower, k);
    ShlDef(lower, k);
    DivMod(lower * Pow2(k), TWO64);
    LeftFar(upper, lower, Pow2(k), lower * Pow2(k) / TWO64, Shl(lower, k));
  }

  lemma ShlDef(x: nat, k: nat)
    requires k < 64
    ensures Shl(x, k) == x * Pow2(k) % TWO64
  {
  }

  lemma LeftFits(upper: nat, c: nat, left: nat)
    requires 0 < left < 64 && c < Pow2(left)
    ensures upper % Pow2(64 - left) * Pow2(left) + c < TWO64
  {
    hide Pow2;
    var r, p := Pow2(64 - left), Pow2(left);
    Pow64();
    Pow2Add(64 - left, left);
    MulLess(upper % r, r, p);
  }

  lemma LeftSum(upper: nat, lower: nat, p: nat, a: nat, b: nat, c: nat, l: nat)
    requires upper * p == a * TWO64 + b && lower * p == c * TWO64 + l && b + c < TWO64 && l < TWO64
    ensures Wide(b + c, l) == Wide(upper, lower) * p % (TWO64 * TWO64)
  {
    assert Wide(upper, lower) * p == upper * p * TWO64 + lower * p;
    assert Wide(upper, lower) * p == a * (TWO64 * TWO64) + Wide(b + c, l);
    DivModIs(Wide(upper, lower) * p, TWO64 * TWO64, a, Wide(b + c, l));
  }

  lemma LeftFar(upper: nat, lower: nat, p: nat, a: nat, b: nat)
    requires lower * p == a * TWO64 + b && b < TWO64
    ensures Wide(b, 0) == Wide(upper, lower) * (TWO64 * p) % (TWO64 * TWO64)
  {
    assert Wide(upper, lower) * (TWO64 * p) == upper * p * (TWO64 * TWO64) + lower * p * TWO64;
    assert Wide(upper, lower) * (TWO64 * p) == (upper * p + a) * (TWO64 * TWO64) + b * TWO64;
    DivModIs(Wide(upper, lower) * (TWO64 * p), TWO64 * TWO64, upper * p + a, Wide(b, 0));
  }

  // Shifting the two words right is dividing the 128-bit number.
  lemma RightIs(upper: nat, lower: nat, right: nat)
    requires 0 < right < 128 && upper < TWO64 && lower < TWO64
    ensures var (u, l) := RightWords(upper, lower, right);
      u < TWO64 && l < TWO64 && Wide(u, l) == Wide(upper, lower) / Pow2(right)
  {
    hide Pow2, Shl, Shr, Or;
    Pow64();
    if right < 64 {
      var p, r := Pow2(right), Pow2(64 - right);
      Pow2Add(right, 64 - right);
      ShlIs(upper, 64 - right);
      ShrDef(upper, right);
      ShrDef(lower, right);
      BelowQuotient(lower, p, r);
      OrIsSum(upper % p, lower / p, 64 - right);
      OrSym(lower / p, upper % p * r);
      MulLess(upper % p, p, r);
      RightSum(upper, lower, p, r);
      QuotientSmaller(upper, p);
    } else {
      var k := right - 64;
      Pow2Add(64, k);
      ShrDef(upper, k);
      DivTwice(Wide(upper, lower), TWO64, Pow2(k));
      DivModIs(Wide(upper, lower), TWO64, upper, lower);
      QuotientSmaller(upper, Pow2(k));
    }
  }

  lemma ShrDef(x: nat, k: nat)
    requires k < 64
    ensures Shr(x, k) == x / Pow2(k)
  {
  }

  lemma QuotientSmaller(x: nat, p: nat)
    requires p > 0
    ensures x / p <= x
  {
    DivMod(x, p);
    MulAtLeast(x / p, p);
  }

  lemma MulAtLeast(q: nat, p: nat)
    requires p > 0
    ensures q * p >= q
  {
    assert q * p == q * (p - 1) + q;
  }

  lemma RightSum(upper: nat, lower: nat, p: nat, r: nat)
    requires p > 0 && p * r == TWO64
    ensures Wide(upper / p, upper % p * r + lower / p) == Wide(upper, lower) / p
  {
    DivMod(upper, p);
    DivMod(lower, p);
    var q := Wide(upper / p, upper % p * r + lower / p);
    assert upper * TWO64 == upper / p * p * TWO64 + upper % p * (p * r);
    assert upper / p * p * TWO64 == upper / p * TWO64 * p && upper % p * (p * r) == upper % p * r * p;
    assert Wide(upper, lower) == q * p + lower % p;
    DivModIs(Wide(upper, lower), p, q, lower % p);
  }

  // Left, then right: what is left are nr bits from bit off on.
  lemma ShiftsExtract(v: nat, off: nat, nr: nat)
    requires nr >= 1 && off + nr <= 127
    ensures v * Pow2(128 - (off + nr)) % (TWO64 * TWO64) / Pow2(128 - nr) == v / Pow2(off) % Pow2(nr)
  {
    hide Pow2;
    var left := 128 - (off + nr);
    var p, o, n := Pow2(left), Pow2(off), Pow2(nr);
    Pow128();
    Pow2Add(left, off + nr);
    Pow2Add(off, nr);
    Pow2Add(left, off);
    ModFactor(v, p, o * n);
    var low := v % (o * n);
    DivTwice(low * p, p, o);
    DivModIs(low * p, p, low, 0);
    DivTwice(v, o, n);
  }

  // btf_int128_shift, on the words of a little-endian machine
  method Int128Shift(num: array<nat>, left: nat, right: nat)
    requires num.Length == 2 && num[0] < TWO64 && num[1] < TWO64 && 0 < left < 128 && 0 < right < 128
    modifies num
    ensures num[0] < TWO64 && num[1] < TWO64
    ensures Wide(num[1], num[0]) == old(Wide(num[1], num[0])) * Pow2(left) % (TWO64 * TWO64) / Pow2(right)
  {
    hide Pow2, Shl, Shr, Or;
    var upper, lower := num[1], num[0];
    LeftIs(upper, lower, left);
    if left >= 64 {
      upper := Shl(lower, left - 64);
      lower := 0;
    } else {
      upper := Or(Shl(upper, left), Shr(lower, 64 - left));
      lower := Shl(lower, left);
    }
    RightIs(upper, lower, right);
    if right >= 64 {
      lower := Shr(upper, right - 64);
      upper := 0;
    } else {
      lower := Or(Shr(lower, right), Shl(upper, 64 - right));
      upper := Shr(upper, right);
    }
    num[0] := lower;
    num[1] := upper;
  }

  // --- bytes

  type byte = x: nat | x < 0x100

  // The number that bytes stand for, least significant first.
  function Value(s: seq<byte>): nat {
    if s == [] then 0 else s[0] + 256 * Value(s[1..])
  }

  lemma {:induction false} ValueConcat(a: seq<byte>, b: seq<byte>)
    ensures Value(a + b) == Value(a) + Value(b) * Pow2(8 * |a|)
    ensures Value(a) < Pow2(8 * |a|)
  {
    hide Pow2;
    if a == [] {
      assert a + b == b && Pow2(0) == 1 by { PowZero(); }
    } else {
      ValueConcat(a[1..], b);
      assert (a + b)[1..] == a[1..] + b;
      Pow64();
      Pow2Add(8, 8 * |a[1..]|);
      assert Value(b) * (256 * Pow2(8 * |a[1..]|)) == 256 * (Value(b) * Pow2(8 * |a[1..]|));
    }
  }

  lemma PowZero()
    ensures Pow2(0) == 1
  {
  }

  // A slice of the bytes, as a slice of the bits.
  lemma ValueSlice(s: seq<byte>, i: nat, j: nat)
    requires i <= j <= |s|
    ensures Value(s[i..j]) == Value(s) / Pow2(8 * i) % Pow2(8 * (j - i))
  {
    hide Pow2, Value;
    assert s == s[..i] + (s[i..j] + s[j..]);
    ValueConcat(s[..i], s[i..j] + s[j..]);
    ValueConcat(s[i..j], s[j..]);
    DivModIs(Value(s), Pow2(8 * i), Value(s[i..j] + s[j..]), Value(s[..i]));
    DivModIs(Value(s[i..j] + s[j..]), Pow2(8 * (j - i)), Value(s[j..]), Value(s[i..j]));
  }

  function BytesFor(bits: nat): nat {
    (bits + 7) / 8
  }

  // btf_dumper_bitfield: copies the bytes that hold the bits into two words and shifts them.
  method BitfieldWords(nr: nat, off: nat, data: seq<byte>) returns (upper: nat, lower: nat)
    requires nr >= 1 && off + nr <= 127 && |data| >= BytesFor(off + nr)
    ensures upper < TWO64 && lower < TWO64
    ensures Wide(upper, lower) == Value(data[..BytesFor(off + nr)]) / Pow2(off) % Pow2(nr)
  {
    hide Pow2, Value;
    var bits := off + nr;
    var bytes := BytesFor(bits);
    var num := new nat[2];
    num[0], num[1] := CopyWords(data[..bytes]);
    ghost var v := Wide(num[1], num[0]);
    Int128Shift(num, 128 - bits, 128 - nr);
    ShiftsExtract(v, off, nr);
    return num[1], num[0];
  }

  // memcpy of up to 16 bytes into two zeroed words
  method CopyWords(s: seq<byte>) returns (lower: nat, upper: nat)
    requires |s| <= 16
    ensures lower < TWO64 && upper < TWO64 && Wide(upper, lower) == Value(s)
  {
    hide Pow2, Value;
    var k := if |s| < 8 then |s| else 8;
    lower, upper := Value(s[..k]), Value(s[k..]);
    assert s == s[..k] + s[k..];
    ValueConcat(s[..k], s[k..]);
    ValueConcat(s[k..], []);
    Pow64();
    if k < 8 {
      PowRises(8 * k, 64);
      assert s[k..] == [];
      assert Value([]) == 0 by { ValueNone(); }
    } else {
      PowRises(8 * |s[k..]|, 64);
    }
  }

  lemma ValueNone()
    ensures Value([]) == 0
  {
  }

  lemma {:induction false} PowRises(a: nat, b: nat)
    requires a <= b
    ensures Pow2(a) <= Pow2(b)
    decreases b
  {
    if a < b {
      PowRises(a, b - 1);
    }
  }

  // btf_dumper_int_bits: reads exactly bits total to total + nr of the data, where total is the
  // bit offset of the member and of the integer type together.
  method IntBits(nr: nat, bitOffset: nat, intOffset: nat, data: seq<byte>) returns (upper: nat, lower: nat)
    requires var total := bitOffset + intOffset;
      nr >= 1 && total % 8 + nr <= 127 && |data| >= total / 8 + BytesFor(total % 8 + nr)
    ensures upper < TWO64 && lower < TWO64
    ensures Wide(upper, lower) == Value(data) / Pow2(bitOffset + intOffset) % Pow2(nr)
  {
    hide Pow2, Value;
    var total := bitOffset + intOffset;
    var skip := total / 8;
    upper, lower := BitfieldWords(nr, total % 8, data[skip..]);
    ghost var n := BytesFor(total % 8 + nr);
    assert data[skip..][..n] == data[skip..skip + n];
    ValueSlice(data, skip, skip + n);
    BitsWithin(Value(data), 8 * skip, total % 8, nr, 8 * n);
  }

  // Bits off to off + nr of the bits from start on, cut off at some length.
  lemma BitsWithin(v: nat, start: nat, off: nat, nr: nat, length: nat)
    requires off + nr <= length
    ensures v / Pow2(start) % Pow2(length) / Pow2(off) % Pow2(nr) == v / Pow2(start + off) % Pow2(nr)
  {
    hide Pow2;
    var x := v / Pow2(start);
    Pow2Add(off, length - off);
    Pow2Add(nr, length - off - nr);
    Pow2Add(start, off);
    DivTwice(v, Pow2(start), Pow2(off));
    DivTwice(x, Pow2(off), Pow2(length - off));
    DivTwice(x / Pow2(off), Pow2(nr), Pow2(length - off - nr));
  }
}
