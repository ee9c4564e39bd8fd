/** What insertion, deletion and clearing do to the entries of every key, growth included. */
module HashOps {
  import opened HashModel
  import opened Powers
  import opened HashRefine

  // Replacing the first entry of a key by an equal one.
  lemma {:induction false} ChainSet(chain: seq<Entry>, key: int, e: Entry, k: int, f: Fns)
    requires Lawful(f) && Locate(chain, key, f) < |chain| && f.equal(e.key, key)
    ensures var o := Only(chain, k, f);
      Only(chain[Locate(chain, key, f) := e], k, f) == if f.equal(key, k) then (if o == [] then [] else [e] + o[1..]) else o
    ensures f.equal(key, k) ==> Only(chain, k, f) != []
  {
    var i := Locate(chain, key, f);
    if i == 0 {
      assert chain[0 := e][1..] == chain[1..];
    } else {
      ChainSet(chain[1..], key, e, k, f);
      assert chain[i := e][1..] == chain[1..][i - 1 := e];
    }
  }

  lemma EqualSame(a: int, b: int, c: int, f: Fns)
    requires Lawful(f)
    ensures f.equal(a, b) ==> (f.equal(a, c) <==> f.equal(b, c))
    ensures !f.equal(a, b) && f.equal(b, c) ==> !f.equal(a, c)
  {
  }

  // Removing the first entry of a key.
  lemma {:induction false} ChainRemove(chain: seq<Entry>, key: int, k: int, f: Fns)
    requires Lawful(f) && Locate(chain, key, f) < |chain|
    ensures var o, i := Only(chain, k, f), Locate(chain, key, f);
      Only(chain[..i] + chain[i + 1..], k, f) == if f.equal(key, k) then (if o == [] then [] else o[1..]) else o
  {
    hide Lawful;
    var i := Locate(chain, key, f);
    EqualSame(chain[i].key, key, k, f);
    if i == 0 {
      assert chain[..0] + chain[1..] == chain[1..];
    } else {
      ChainRemove(chain[1..], key, k, f);
      var rest := chain[..i] + chain[i + 1..];
      assert rest[0] == chain[0] && rest[1..] == chain[1..][..i - 1] + chain[1..][i..];
      EqualSame(chain[0].key, key, k, f);
    }
  }

  // Changing one chain to entries of the same bucket keeps entries where their hashes name.
  lemma ChainChanged(m: HMap, m2: HMap, h: nat, chain: seq<Entry>, f: Fns)
    requires Inv(m, f) && h < |m.buckets| && m2.buckets == m.buckets[h := chain] && m2.bits == m.bits
    requires Placed(chain, h, m.bits, f)
    requires m2.sz + |m.buckets[h]| == m.sz + |chain| && m2.sz * 4 / 3 <= |m.buckets|
    ensures Inv(m2, f)
  {
    CatAt(m.buckets, h);
    CatUpdate(m.buckets, h, chain);
  }

  lemma SetRefines(m: HMap, key: int, value: int, f: Fns)
    requires Inv(m, f) && Lawful(f) && Find(m, key, f).Some?
    ensures var h := BucketOf(m, key, f); h < |m.buckets| && Locate(m.buckets[h], key, f) < |m.buckets[h]|
    ensures var h, e := BucketOf(m, key, f), Entry(key, value);
      var m2 := SetAt(m, h, Locate(m.buckets[h], key, f), e);
      Inv(m2, f)
      && forall k :: Vals(m2, k, f) ==
           if f.equal(key, k) && Vals(m, k, f) != [] then [e] + Vals(m, k, f)[1..] else Vals(m, k, f)
  {
    hide Only, Cat;
    var h, e := BucketOf(m, key, f), Entry(key, value);
    var chain := m.buckets[h];
    var i := Locate(chain, key, f);
    var m2 := SetAt(m, h, i, e);
    assert Placed(chain, h, m.bits, f) && chain[i] in chain;
    ChainChanged(m, m2, h, chain[i := e], f);
    forall k
      ensures Vals(m2, k, f) ==
        if f.equal(key, k) && Vals(m, k, f) != [] then [e] + Vals(m, k, f)[1..] else Vals(m, k, f)
    {
      ChainSet(chain, key, e, k, f);
      OwnBucket(m, k, f);
      OwnBucket(m2, k, f);
    }
  }

  lemma RemoveRefines(m: HMap, key: int, f: Fns)
    requires Inv(m, f) && Lawful(f) && Find(m, key, f).Some?
    ensures var h := BucketOf(m, key, f); h < |m.buckets| && Locate(m.buckets[h], key, f) < |m.buckets[h]| && m.sz > 0
    ensures var h := BucketOf(m, key, f);
      var m2 := RemoveAt(m, h, Locate(m.buckets[h], key, f));
      Inv(m2, f)
      && forall k :: Vals(m2, k, f) == if f.equal(key, k) && Vals(m, k, f) != [] then Vals(m, k, f)[1..] else Vals(m, k, f)
  {
    hide Only, Cat;
    var h := BucketOf(m, key, f);
    var chain := m.buckets[h];
    var i := Locate(chain, key, f);
    CatAt(m.buckets, h);
    var m2 := RemoveAt(m, h, i);
    assert Placed(chain, h, m.bits, f);
    ChainChanged(m, m2, h, chain[..i] + chain[i + 1..], f);
    forall k ensures Vals(m2, k, f) == if f.equal(key, k) && Vals(m, k, f) != [] then Vals(m, k, f)[1..] else Vals(m, k, f) {
      ChainRemove(chain, key, k, f);
      OwnBucket(m, k, f);
      OwnBucket(m2, k, f);
    }
  }

  lemma AddRefines(m: HMap, e: Entry, f: Fns)
    requires Inv(m, f) && Lawful(f) && m.buckets != [] && (m.sz + 1) * 4 / 3 <= |m.buckets|
    ensures Inv(AddFront(m, e, f), f)
    ensures forall k :: Vals(AddFront(m, e, f), k, f) == (if f.equal(e.key, k) then [e] else []) + Vals(m, k, f)
  {
    hide Only, Cat;
    var h, m2 := BucketOf(m, e.key, f), AddFront(m, e, f);
    HashInRange(f.hash(e.key), m.bits);
    assert Placed(m.buckets[h], h, m.bits, f);
    ChainChanged(m, m2, h, [e] + m.buckets[h], f);
    forall k ensures Vals(m2, k, f) == (if f.equal(e.key, k) then [e] else []) + Vals(m, k, f) {
      OwnBucket(m, k, f);
      OwnBucket(m2, k, f);
      OnlyConcat([e], m.buckets[h], k, f);
      OnlyOne(e, k, f);
      assert [] + Vals(m, k, f) == Vals(m, k, f);
    }
  }

  // --- the whole insertion

  // The key is there already and the strategy looks for it.
  predicate Exists(m: HMap, key: int, strategy: Strategy, f: Fns) {
    strategy != Append && Vals(m, key, f) != []
  }

  // The table grows, whether or not the entry can then be allocated.
  predicate Grows(m: HMap, key: int, strategy: Strategy, alloc: Alloc, f: Fns) {
    !Exists(m, key, strategy, f) && strategy != Update && NeedsToGrow(m) && CanGrow(m, alloc)
  }

  function InsertError(m: HMap, key: int, strategy: Strategy, alloc: Alloc, f: Fns): int {
    if Exists(m, key, strategy, f) then (if strategy == Add then -EEXIST else 0)
    else if strategy == Update then -ENOENT
    else if (NeedsToGrow(m) && !CanGrow(m, alloc)) || !alloc.entry then -ENOMEM
    else 0
  }

  // What an insertion leaves of the entries l of some key: nothing changes on an error, except that
  // growth reverses them; the new entry replaces the first equal one, or goes in front.
  function AfterInsert(l: seq<Entry>, same: bool, grown: bool, exists_: bool, err: int, e: Entry): seq<Entry> {
    var r := if grown then Reverse(l) else l;
    if err != 0 || !same then r
    else if exists_ && r != [] then [e] + r[1..]
    else [e] + r
  }

  lemma InsertRefines(m: HMap, key: int, value: int, strategy: Strategy, alloc: Alloc, f: Fns)
    requires Inv(m, f) && Lawful(f)
    ensures var r := Insert(m, key, value, strategy, alloc, f);
      Inv(r.m, f)
      && r.err == InsertError(m, key, strategy, alloc, f)
      && r.was == (if Exists(m, key, strategy, f) then Some(Vals(m, key, f)[0]) else None)
      && forall k :: Vals(r.m, k, f) ==
           AfterInsert(Vals(m, k, f), f.equal(key, k), Grows(m, key, strategy, alloc, f),
             Exists(m, key, strategy, f), r.err, Entry(key, value))
  {
    hide Inv, Vals, Reverse, Grow, AddFront;
    FindIsFirst(m, key, f);
    var e := Entry(key, value);
    if Exists(m, key, strategy, f) {
      if strategy != Add {
        SetRefines(m, key, value, f);
        forall k | f.equal(key, k) ensures Vals(m, k, f) != [] {
          SameVals(m, key, k, f);
        }
      }
    } else if strategy != Update {
      if NeedsToGrow(m) {
        if CanGrow(m, alloc) {
          GrowReverses(m, f);
          Pow2Positive(NextBits(m));
          AddRefines(Grow(m, f), e, f);
        }
      } else {
        AddRefines(m, e, f);
      }
    }
  }

  lemma Pow2Positive(n: nat)
    ensures Pow2(n) > 0
  {
  }

  // Equal keys have the same entries.
  lemma {:induction false} OnlySame(chain: seq<Entry>, a: int, b: int, f: Fns)
    requires Lawful(f) && f.equal(a, b)
    ensures Only(chain, a, f) == Only(chain, b, f)
  {
    if chain != [] {
      OnlySame(chain[1..], a, b, f);
      assert f.equal(chain[0].key, a) <==> f.equal(chain[0].key, b);
    }
  }

  lemma SameVals(m: HMap, a: int, b: int, f: Fns)
    requires Lawful(f) && f.equal(a, b)
    ensures Vals(m, a, f) == Vals(m, b, f)
  {
    OnlySame(Cat(m.buckets), a, b, f);
  }

  // Deleting takes the first entry of the key away, and fails exactly if there is none.
  lemma DeleteRefines(m: HMap, key: int, f: Fns)
    requires Inv(m, f) && Lawful(f)
    ensures var (m2, was) := Delete(m, key, f);
      Inv(m2, f)
      && was == (if Vals(m, key, f) == [] then None else Some(Vals(m, key, f)[0]))
      && forall k :: Vals(m2, k, f) == if f.equal(key, k) && Vals(m, k, f) != [] then Vals(m, k, f)[1..] else Vals(m, k, f)
  {
    hide Vals;
    FindIsFirst(m, key, f);
    if Find(m, key, f).Some? {
      RemoveRefines(m, key, f);
    } else {
      forall k | f.equal(key, k) ensures Vals(m, k, f) == [] {
        SameVals(m, key, k, f);
      }
    }
  }

  lemma EmptyRefines(f: Fns)
    ensures Inv(EMPTY, f) && forall k :: Vals(EMPTY, k, f) == []
  {
  }
}
