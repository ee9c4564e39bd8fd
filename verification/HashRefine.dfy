/** The hash map refines a multimap: what every operation does to the entries of every key. */
module HashRefine {
  import opened HashModel
  import opened Powers

  lemma {:induction false} OnlyConcat(a: seq<Entry>, b: seq<Entry>, key: int, f: Fns)
    ensures Only(a + b, key, f) == Only(a, key, f) + Only(b, key, f)
  {
    if a == [] {
      assert a + b == b;
    } else {
      assert (a + b)[1..] == a[1..] + b;
      OnlyConcat(a[1..], b, key, f);
    }
  }

  lemma {:induction false} OnlyNone(a: seq<Entry>, key: int, f: Fns)
    requires forall e | e in a :: !f.equal(e.key, key)
    ensures Only(a, key, f) == []
  {
    if a != [] {
      assert a[0] in a;
      OnlyNone(a[1..], key, f);
    }
  }

  lemma {:induction false} CatConcat(a: seq<seq<Entry>>, b: seq<seq<Entry>>)
    ensures Cat(a + b) == Cat(a) + Cat(b)
  {
    if a == [] {
      assert a + b == b;
    } else {
      assert (a + b)[1..] == a[1..] + b;
      CatConcat(a[1..], b);
    }
  }

  // The entries before, in and after a bucket.
  lemma CatAt(buckets: seq<seq<Entry>>, h: nat)
    requires h < |buckets|
    ensures Cat(buckets) == Cat(buckets[..h]) + buckets[h] + Cat(buckets[h + 1..])
  {
    assert buckets == buckets[..h] + buckets[h..];
    CatConcat(buckets[..h], buckets[h..]);
  }

  lemma {:induction false} InCat(buckets: seq<seq<Entry>>, e: Entry) returns (b: nat)
    requires e in Cat(buckets)
    ensures b < |buckets| && e in buckets[b]
  {
    if e in buckets[0] {
      b := 0;
    } else {
      b := InCat(buckets[1..], e);
      b := b + 1;
    }
  }

  // A key's entries are all in its own bucket.
  lemma OwnBucket(m: HMap, key: int, f: Fns)
    requires Inv(m, f) && Lawful(f)
    ensures var h := BucketOf(m, key, f);
      Vals(m, key, f) == if h < |m.buckets| then Only(m.buckets[h], key, f) else []
  {
    var h := BucketOf(m, key, f);
    if h < |m.buckets| {
      var a, b := Cat(m.buckets[..h]), Cat(m.buckets[h + 1..]);
      CatAt(m.buckets, h);
      OnlyConcat(a + m.buckets[h], b, key, f);
      OnlyConcat(a, m.buckets[h], key, f);
      forall e | e in a ensures !f.equal(e.key, key) {
        var i := InCat(m.buckets[..h], e);
        assert Placed(m.buckets[i], i, m.bits, f) && e in m.buckets[i];
      }
      forall e | e in b ensures !f.equal(e.key, key) {
        var i := InCat(m.buckets[h + 1..], e);
        assert Placed(m.buckets[h + 1 + i], h + 1 + i, m.bits, f) && e in m.buckets[h + 1 + i];
      }
      OnlyNone(a, key, f);
      OnlyNone(b, key, f);
      assert [] + m.buckets[h] + [] == m.buckets[h];
    } else {
      HashInRange(f.hash(key), m.bits);
    }
  }

  lemma {:induction false} LocateFirst(chain: seq<Entry>, key: int, f: Fns)
    ensures var i := Locate(chain, key, f);
      if i < |chain| then Only(chain, key, f) != [] && Only(chain, key, f)[0] == chain[i] else Only(chain, key, f) == []
  {
    if chain != [] && !f.equal(chain[0].key, key) {
      LocateFirst(chain[1..], key, f);
    }
  }

  // Finding a key gives the first of its entries, and fails exactly if it has none.
  lemma FindIsFirst(m: HMap, key: int, f: Fns)
    requires Inv(m, f) && Lawful(f)
    ensures Find(m, key, f) == if Vals(m, key, f) == [] then None else Some(Vals(m, key, f)[0])
  {
    hide Inv;
    OwnBucket(m, key, f);
    var h := BucketOf(m, key, f);
    if h < |m.buckets| {
      LocateFirst(m.buckets[h], key, f);
    }
  }

  // --- growth

  lemma {:induction false} ReverseConcat(a: seq<Entry>, b: seq<Entry>)
    ensures Reverse(a + b) == Reverse(b) + Reverse(a)
  {
    if a == [] {
      assert a + b == b;
    } else {
      assert (a + b)[1..] == a[1..] + b;
      ReverseConcat(a[1..], b);
    }
  }

  lemma {:induction false} ReverseTwice(a: seq<Entry>)
    ensures Reverse(Reverse(a)) == a && |Reverse(a)| == |a|
  {
    if a != [] {
      ReverseTwice(a[1..]);
      ReverseConcat(Reverse(a[1..]), [a[0]]);
      assert Reverse([a[0]]) == [a[0]];
    }
  }

  // Putting entries into buckets keeps every entry in its place.
  lemma {:induction false} PutAllPlaced(buckets: seq<seq<Entry>>, es: seq<Entry>, bits: nat, f: Fns)
    requires bits <= 64 && |buckets| == Pow2(bits) && forall b | 0 <= b < |buckets| :: Placed(buckets[b], b, bits, f)
    ensures var r := PutAll(buckets, es, bits, f); forall b | 0 <= b < |r| :: Placed(r[b], b, bits, f)
    ensures |Cat(PutAll(buckets, es, bits, f))| == |Cat(buckets)| + |es|
    decreases |es|
  {
    if es != [] {
      var n := |es| - 1;
      PutAllPlaced(buckets, es[..n], bits, f);
      PutLength(PutAll(buckets, es[..n], bits, f), es[n], bits, f);
    }
  }

  lemma PutLength(buckets: seq<seq<Entry>>, e: Entry, bits: nat, f: Fns)
    requires bits <= 64 && |buckets| == Pow2(bits)
    ensures |Cat(Put(buckets, e, bits, f))| == |Cat(buckets)| + 1
  {
    HashInRange(f.hash(e.key), bits);
    var h := HashBits(f.hash(e.key), bits);
    CatUpdate(buckets, h, [e] + buckets[h]);
    CatAt(buckets, h);
  }

  lemma CatUpdate(buckets: seq<seq<Entry>>, h: nat, chain: seq<Entry>)
    requires h < |buckets|
    ensures Cat(buckets[h := chain]) == Cat(buckets[..h]) + chain + Cat(buckets[h + 1..])
  {
    var r := buckets[h := chain];
    CatAt(r, h);
    assert r[..h] == buckets[..h] && r[h + 1..] == buckets[h + 1..];
  }

  // In its bucket, each key's entries end up in front of what was there, in reverse.
  lemma {:induction false} PutAllReverses(buckets: seq<seq<Entry>>, es: seq<Entry>, bits: nat, key: int, f: Fns)
    requires bits <= 64 && |buckets| == Pow2(bits) && Lawful(f)
    ensures HashBits(f.hash(key), bits) < |buckets|
    ensures var h := HashBits(f.hash(key), bits);
      Only(PutAll(buckets, es, bits, f)[h], key, f) == Reverse(Only(es, key, f)) + Only(buckets[h], key, f)
    decreases |es|
  {
    hide Only, Reverse, HashBits, Pow2, Lawful, Put;
    HashInRange(f.hash(key), bits);
    var h := HashBits(f.hash(key), bits);
    if es == [] {
      OnlyNone([], key, f);
      ReverseNone();
    } else {
      var n := |es| - 1;
      var e := es[n];
      PutAllReverses(buckets, es[..n], bits, key, f);
      assert es == es[..n] + [e];
      OnlyConcat(es[..n], [e], key, f);
      ReverseConcat(Only(es[..n], key, f), Only([e], key, f));
      OnlyOne(e, key, f);
      PutOnly(PutAll(buckets, es[..n], bits, f), e, bits, key, f);
    }
  }

  lemma ReverseNone()
    ensures Reverse([]) == []
  {
  }

  // A new entry comes first for its key, and only for that.
  lemma PutOnly(buckets: seq<seq<Entry>>, e: Entry, bits: nat, key: int, f: Fns)
    requires bits <= 64 && |buckets| == Pow2(bits) && Lawful(f) && HashBits(f.hash(key), bits) < |buckets|
    ensures var h := HashBits(f.hash(key), bits);
      Only(Put(buckets, e, bits, f)[h], key, f) == Only([e], key, f) + Only(buckets[h], key, f)
  {
    hide Only, HashBits, Pow2;
    HashInRange(f.hash(e.key), bits);
    OnlyConcat([e], buckets[HashBits(f.hash(key), bits)], key, f);
    OnlyOne(e, key, f);
  }

  lemma OnlyOne(e: Entry, key: int, f: Fns)
    ensures Only([e], key, f) == if f.equal(e.key, key) then [e] else []
    ensures Reverse(Only([e], key, f)) == Only([e], key, f)
  {
    assert [e][1..] == [];
  }

  // Putting entries into buckets loses none and adds none.
  lemma {:induction false} PutAllKeeps(buckets: seq<seq<Entry>>, es: seq<Entry>, bits: nat, f: Fns)
    requires bits <= 64 && |buckets| == Pow2(bits)
    ensures multiset(Cat(PutAll(buckets, es, bits, f))) == multiset(Cat(buckets)) + multiset(es)
    decreases |es|
  {
    if es != [] {
      var n := |es| - 1;
      PutAllKeeps(buckets, es[..n], bits, f);
      PutKeeps(PutAll(buckets, es[..n], bits, f), es[n], bits, f);
      assert es == es[..n] + [es[n]];
    }
  }

  lemma PutKeeps(buckets: seq<seq<Entry>>, e: Entry, bits: nat, f: Fns)
    requires bits <= 64 && |buckets| == Pow2(bits)
    ensures multiset(Cat(Put(buckets, e, bits, f))) == multiset(Cat(buckets)) + multiset{e}
  {
    HashInRange(f.hash(e.key), bits);
    var h := HashBits(f.hash(e.key), bits);
    CatUpdate(buckets, h, [e] + buckets[h]);
    CatAt(buckets, h);
  }

  // Growing keeps all entries and the invariant, makes room for one more, and reverses the order of
  // every key's entries.
  lemma GrowReverses(m: HMap, f: Fns)
    requires Inv(m, f) && Lawful(f) && NextBits(m) <= MAX_CAP_BITS
    ensures Inv(Grow(m, f), f) && Grow(m, f).sz == m.sz && |Grow(m, f).buckets| == Pow2(NextBits(m))
    ensures (m.sz + 1) * 4 / 3 <= |Grow(m, f).buckets|
    ensures multiset(Cat(Grow(m, f).buckets)) == multiset(Cat(m.buckets))
    ensures forall key :: Vals(Grow(m, f), key, f) == Reverse(Vals(m, key, f))
  {
    hide PutAll, Only, Cat, Reverse;
    var bits, g := NextBits(m), Grow(m, f);
    var none := NoEntries(Pow2(bits));
    CatNone(Pow2(bits));
    PutAllPlaced(none, Cat(m.buckets), bits, f);
    PutAllKeeps(none, Cat(m.buckets), bits, f);
    RoomAfter(m, f);
    forall key ensures Vals(g, key, f) == Reverse(Vals(m, key, f)) {
      PutAllReverses(none, Cat(m.buckets), bits, key, f);
      OwnBucket(g, key, f);
      OnlyNone([], key, f);
    }
  }

  lemma {:induction false} CatNone(n: nat)
    ensures Cat(NoEntries(n)) == []
  {
    if n > 0 {
      CatNone(n - 1);
      assert NoEntries(n)[1..] == NoEntries(n - 1);
    }
  }

  // Doubling the capacity makes room for one more.
  lemma RoomAfter(m: HMap, f: Fns)
    requires Inv(m, f)
    ensures (m.sz + 1) * 4 / 3 <= Pow2(NextBits(m))
  {
    if m.buckets == [] {
      assert Pow2(2) == 4;
    } else {
      assert Pow2(m.bits + 1) == 2 * Pow2(m.bits);
      Pow2Add(2, m.bits - 2);
      assert Pow2(m.bits) >= 4;
    }
  }
}
