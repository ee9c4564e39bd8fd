/** How large the table gets, and what its hash does to hashes. */
module HashCap {
  import opened Powers
  import opened HashModel
  import opened HashRefine
  import opened HashOps
  import opened HashRuns

  // --- capacity

  // The largest number of entries held since the map was last cleared.
  function Peak(cs: seq<Call>, f: Fns): nat {
    if cs == [] || cs[|cs| - 1] == ClearCall then 0 else
    var before, now := Peak(cs[..|cs| - 1], f), Exec(cs, f).sz;
    if now > before then now else before
  }

  // 2^bits is the least power of two, from 4 on, of which n entries fill at most three quarters.
  ghost predicate LeastRoom(bits: nat, n: nat) {
    bits >= 2 && n * 4 / 3 <= Pow2(bits) && forall c: nat | 2 <= c < bits :: n * 4 / 3 > Pow2(c)
  }

  ghost predicate Fitting(m: HMap, peak: nat) {
    m.sz <= peak && if peak == 0 then m.buckets == [] else |m.buckets| == Pow2(m.bits) && LeastRoom(m.bits, peak)
  }

  lemma {:induction false} Pow2Rises(a: nat, b: nat)
    requires a <= b
    ensures Pow2(a) <= Pow2(b)
    decreases b
  {
    if a < b {
      Pow2Rises(a, b - 1);
    }
  }

  // One entry more than have ever been held.
  lemma NextLeast(bits: nat, n: nat)
    requires LeastRoom(bits, n) && (n + 1) * 4 / 3 > Pow2(bits)
    ensures LeastRoom(bits + 1, n + 1)
  {
    hide Pow2;
    Doubles(bits);
    Pow2Rises(2, bits);
    assert Pow2(2) >= 4 by { Four(); }
    forall c: nat | 2 <= c < bits + 1 ensures (n + 1) * 4 / 3 > Pow2(c) {
      Pow2Rises(c, bits);
    }
  }

  lemma Doubles(bits: nat)
    ensures Pow2(bits + 1) == 2 * Pow2(bits)
  {
  }

  lemma Four()
    ensures Pow2(2) == 4
  {
  }

  lemma FirstLeast()
    ensures LeastRoom(2, 1)
  {
    Four();
  }

  // A new entry, when its memory is there.
  lemma AddedFits(m: HMap, e: Entry, table: bool, peak: nat, f: Fns)
    requires Inv(m, f) && Lawful(f) && Fitting(m, peak)
    ensures var r := if !NeedsToGrow(m) then AddFront(m, e, f) else if !CanGrow(m, Alloc(table, true)) then m
                     else AddFront(Grow(m, f), e, f);
      Fitting(r, if r.sz > peak then r.sz else peak)
  {
    hide Cat, Placed, Pow2, PutAll, Put;
    if !NeedsToGrow(m) {
      if m.sz + 1 > peak {
        assert forall c: nat | 2 <= c < m.bits && peak * 4 / 3 > Pow2(c) :: (peak + 1) * 4 / 3 > Pow2(c);
      }
    } else if CanGrow(m, Alloc(table, true)) {
      if peak == 0 {
        FirstLeast();
      } else {
        NextLeast(m.bits, peak);
      }
    }
  }

  lemma InsertFits(m: HMap, key: int, value: int, strategy: Strategy, table: bool, peak: nat, f: Fns)
    requires Inv(m, f) && Lawful(f) && Fitting(m, peak)
    ensures var r := Insert(m, key, value, strategy, Alloc(table, true), f).m;
      Fitting(r, if r.sz > peak then r.sz else peak)
  {
    hide Inv, NeedsToGrow, CanGrow, Grow, AddFront, LeastRoom, Pow2;
    FindIsFirst(m, key, f);
    AddedFits(m, Entry(key, value), table, peak, f);
    if strategy != Append && Find(m, key, f).Some? && strategy != Add {
      SetRefines(m, key, value, f);
    }
  }

  // As long as entries can be allocated, the table has the least capacity that the entries it has held
  // since it was last cleared need: at most three quarters full, and no larger.
  lemma {:induction false} CapacityIs(cs: seq<Call>, f: Fns)
    requires Lawful(f) && forall c | c in cs :: c.InsertCall? ==> c.alloc.entry
    ensures Fitting(Exec(cs, f), Peak(cs, f))
    decreases |cs|
  {
    hide Inv, LeastRoom, Insert, Delete, Lawful, Pow2;
    if cs != [] {
      var n := |cs| - 1;
      assert cs[n] in cs && forall c | c in cs[..n] :: c in cs;
      CapacityIs(cs[..n], f);
      ExecInv(cs[..n], f);
      var m := Exec(cs[..n], f);
      match cs[n]
      case InsertCall(key, value, strategy, alloc) =>
        InsertFits(m, key, value, strategy, alloc.table, Peak(cs[..n], f), f);
        assert alloc == Alloc(alloc.table, true);
      case DeleteCall(key) => DeletedSmaller(m, key, f);
      case FindCall(_) =>
      case ClearCall =>
    }
  }

  lemma DeletedSmaller(m: HMap, key: int, f: Fns)
    ensures var r := Delete(m, key, f).0; r.sz <= m.sz && |r.buckets| == |m.buckets| && r.bits == m.bits
  {
  }

  // --- hash_bits

  // The upper bits of the 64-bit product with 2^64 divided by the golden ratio.
  lemma HashIsUpper(h: nat, bits: nat)
    requires 0 < bits <= 64
    ensures var x := HashBits(h, bits);
      x * Pow2(64 - bits) <= h * 11400714819323198485 % 0x1_0000_0000_0000_0000 < (x + 1) * Pow2(64 - bits)
  {
    hide Pow2;
    var p, d := h * GOLDEN % TWO64, Pow2(64 - bits);
    assert p == p / d * d + p % d;
    assert (p / d + 1) * d == p / d * d + d;
  }

  const INVERSE: nat := 17428512612931826493

  lemma ModTimes(a: nat, b: nat, m: nat)
    requires m > 0
    ensures (a % m) * b % m == a * b % m
  {
    var q, r := a / m, a % m;
    assert a == q * m + r;
    calc {
      a * b;
      (q * m + r) * b;
      q * m * b + r * b;
      { MulSwap(q, m, b); }
      (q * b) * m + r * b;
    }
    AddMultiple(r * b, q * b, m);
  }

  lemma MulSwap(q: nat, m: nat, b: nat)
    ensures q * m * b == (q * b) * m
  {
  }

  lemma {:induction false} AddMultiple(x: nat, k: nat, m: nat)
    requires m > 0
    ensures (k * m + x) % m == x % m
  {
    if k > 0 {
      AddMultiple(x, k - 1, m);
      assert k * m + x == ((k - 1) * m + x) + m;
      ModAdd((k - 1) * m + x, m);
    }
  }

  lemma ModAdd(x: nat, m: nat)
    requires m > 0
    ensures (x + m) % m == x % m
  {
    assert (x / m + 1) * m == x / m * m + m;
    DivModIs(x + m, m, x / m + 1, x % m);
  }

  // The product can be undone, so that no two hashes are merged before the upper bits are taken.
  lemma ProductUndone(h: nat)
    requires h < TWO64
    ensures (h * GOLDEN % TWO64) * INVERSE % TWO64 == h
  {
    ModTimes(h * GOLDEN, INVERSE, TWO64);
    assert GOLDEN * INVERSE == 10771413168148108919 * TWO64 + 1;
    calc {
      h * GOLDEN * INVERSE;
      h * (GOLDEN * INVERSE);
      h * (10771413168148108919 * TWO64 + 1);
      (h * 10771413168148108919) * TWO64 + h;
    }
    AddMultiple(h, h * 10771413168148108919, TWO64);
  }

  // With all 64 bits, different hashes fall into different buckets.
  lemma Injective(a: nat, b: nat)
    requires a < TWO64 && b < TWO64 && HashBits(a, 64) == HashBits(b, 64)
    ensures a == b
  {
    ProductUndone(a);
    ProductUndone(b);
    assert Pow2(0) == 1;
  }
}
