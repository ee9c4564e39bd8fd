/** The hash map as a structure updated in place: a table of chains that is refilled when it grows.
    Each method does to the value State() what HashModel says. */
module HashTable {
  import opened HashModel
  import opened Powers
  import opened HashRefine
  import opened HashOps

  class HashMap {
    const f: Fns
    var buckets: array?<seq<Entry>>
    var cap: nat
    var capBits: nat
    var sz: nat

    ghost predicate Valid()
      reads this
    {
      if buckets == null then cap == 0 else cap == buckets.Length && cap > 0
    }

    ghost function State(): HMap
      reads this, buckets
    {
      HMap(if buckets == null then [] else buckets[..], capBits, sz)
    }

    // Valid, and the value it holds keeps the invariant.
    ghost predicate Good()
      reads this, buckets
    {
      Valid() && Inv(State(), f)
    }

    // hashmap__init
    constructor (f: Fns)
      ensures this.f == f && Good() && State() == EMPTY
    {
      this.f := f;
      buckets, cap, capBits, sz := null, 0, 0, 0;
      new;
      EmptyRefines(f);
    }

    // hashmap__clear
    method Clear()
      modifies this
      ensures Good() && State() == EMPTY
    {
      buckets := null;
      cap, capBits, sz := 0, 0, 0;
      EmptyRefines(f);
    }

    // hashmap_needs_to_grow; sz stays far below the point where four times it would wrap
    method ShouldGrow() returns (r: bool)
      requires Good()
      ensures r == NeedsToGrow(State())
    {
      r := cap == 0 || (sz + 1) * 4 / 3 > cap;
    }

    // hashmap_grow: ok tells whether calloc succeeds, which it cannot beyond the address space
    method GrowTable(ok: bool) returns (err: int)
      requires Good()
      modifies this
      ensures Valid() && (err == 0 <==> ok && NextBits(old(State())) <= MAX_CAP_BITS) && (err == 0 || err == -ENOMEM)
      ensures State() == if err == 0 then Grow(old(State()), f) else old(State())
      ensures err == 0 ==> fresh(buckets)
      ensures err != 0 ==> buckets == old(buckets)
    {
      var newBits := capBits + 1;
      if newBits < HASHMAP_MIN_CAP_BITS {
        newBits := HASHMAP_MIN_CAP_BITS;
      }
      if !ok || newBits > MAX_CAP_BITS {
        return -ENOMEM;
      }
      var fresh_ := Refill(newBits);
      buckets := fresh_;
      cap := buckets.Length;
      capBits := newBits;
      err := 0;
    }

    // All entries, bucket by bucket and along each chain, into a new table.
    method Refill(bits: nat) returns (t: array<seq<Entry>>)
      requires Valid() && bits <= 64
      ensures fresh(t) && t.Length == Pow2(bits) && t.Length > 0
      ensures t[..] == PutAll(NoEntries(Pow2(bits)), Cat(State().buckets), bits, f)
    {
      hide PutAll, Cat, Put;
      t := new seq<Entry>[Pow2(bits)](_ => []);
      ghost var none := NoEntries(Pow2(bits));
      ghost var old_ := State().buckets;
      Nothing(none, bits, f);
      assert t[..] == none && old_[..0] == [];
      var bkt := 0;
      while bkt < cap
        invariant bkt <= cap && t.Length == Pow2(bits) && State().buckets == old_
        invariant t[..] == PutAll(none, Cat(old_[..bkt]), bits, f)
      {
        assert buckets[bkt] == old_[bkt];
        MoveChain(t, bits, buckets[bkt], Cat(old_[..bkt]), none);
        CatConcat(old_[..bkt], [old_[bkt]]);
        CatOne(old_[bkt]);
        assert old_[..bkt + 1] == old_[..bkt] + [old_[bkt]];
        bkt := bkt + 1;
      }
      assert old_[..cap] == old_;
    }

    // One chain, from its head.
    method MoveChain(t: array<seq<Entry>>, bits: nat, chain: seq<Entry>, ghost before: seq<Entry>, ghost none: seq<seq<Entry>>)
      requires bits <= 64 && t.Length == Pow2(bits) && t[..] == PutAll(none, before, bits, f)
      modifies t
      ensures t[..] == PutAll(none, before + chain, bits, f)
    {
      hide PutAll;
      assert before + chain[..0] == before;
      for i := 0 to |chain|
        invariant t[..] == PutAll(none, before + chain[..i], bits, f)
      {
        var h := HashBits(f.hash(chain[i].key), bits);
        HashInRange(f.hash(chain[i].key), bits);
        ghost var was := t[..];
        t[h] := [chain[i]] + t[h];
        assert t[..] == Put(was, chain[i], bits, f);
        PutAllSnoc(none, before + chain[..i], chain[i], bits, f);
        assert before + chain[..i] + [chain[i]] == before + chain[..i + 1];
      }
      assert chain[..|chain|] == chain;
    }

    // hashmap_find_entry: the position in chain h
    method FindEntry(key: int, h: nat) returns (found: bool, i: nat)
      requires Valid() && (buckets != null ==> h < cap)
      ensures found ==> buckets != null && i == Locate(buckets[h], key, f) < |buckets[h]|
      ensures !found ==> buckets == null || Locate(buckets[h], key, f) == |buckets[h]|
    {
      found, i := false, 0;
      if buckets == null {
        return;
      }
      while i < |buckets[h]|
        invariant i <= |buckets[h]| && forall j | 0 <= j < i :: !f.equal(buckets[h][j].key, key)
      {
        if f.equal(buckets[h][i].key, key) {
          LocateIs(buckets[h], key, i, f);
          return true, i;
        }
        i := i + 1;
      }
      LocateIs(buckets[h], key, i, f);
    }

    // hashmap__find
    method FindKey(key: int) returns (found: bool, value: int)
      requires Good()
      ensures found == Find(State(), key, f).Some?
      ensures found ==> value == Find(State(), key, f).value.value
    {
      var h := HashBits(f.hash(key), capBits);
      HashInRange(f.hash(key), capBits);
      var i;
      found, i := FindEntry(key, h);
      value := if found then buckets[h][i].value else 0;
    }

    // hashmap__insert, with the entry it found as old key and old value
    method InsertKey(key: int, value: int, strategy: Strategy, alloc: Alloc) returns (err: int, was: Option<Entry>)
      requires Good() && Lawful(f)
      modifies this, buckets
      ensures Good() && Inserted(State(), err, was) == Insert(old(State()), key, value, strategy, alloc, f)
    {
      hide Inv, Vals;
      InsertRefines(State(), key, value, strategy, alloc, f);
      was := None;
      InvFacts(State(), f);
      HashInRange(f.hash(key), capBits);
      var h := HashBits(f.hash(key), capBits);
      if strategy != Append {
        var found, i := FindEntry(key, h);
        if found {
          was := Some(buckets[h][i]);
          if strategy == Set || strategy == Update {
            buckets[h] := buckets[h][i := Entry(key, value)];
            return 0, was;
          } else {
            return -EEXIST, was;
          }
        }
      }
      if strategy == Update {
        return -ENOENT, was;
      }
      err := AddNew(Entry(key, value), alloc);
    }

    // The end of hashmap__insert: grow if needed, then a new entry at the front of its chain.
    method AddNew(e: Entry, alloc: Alloc) returns (err: int)
      requires Good() && Lawful(f)
      modifies this, buckets
      ensures Valid()
      ensures var m := old(State());
        if !NeedsToGrow(m) then Inserted(State(), err, None) == AddEntry(m, e, alloc, f)
        else if CanGrow(m, alloc) then Inserted(State(), err, None) == AddEntry(Grow(m, f), e, alloc, f)
        else State() == m && err == -ENOMEM
    {
      hide Inv, Grow, Reverse, Vals, Cat, Lawful, HashBits, Pow2;
      ghost var m0 := State();
      InvFacts(m0, f);
      var grow := ShouldGrow();
      if grow {
        err := GrowTable(alloc.table);
        if err != 0 {
          return;
        }
        GrowReverses(m0, f);
        InvFacts(State(), f);
      }
      if !alloc.entry {
        return -ENOMEM;
      }
      var h := HashBits(f.hash(e.key), capBits);
      HashInRange(f.hash(e.key), capBits);
      ghost var m := State();
      buckets[h] := [e] + buckets[h];
      sz := sz + 1;
      assert State() == AddFront(m, e, f);
      err := 0;
    }

    // hashmap__delete, with the removed entry as old key and old value
    method DeleteKey(key: int) returns (was: Option<Entry>)
      requires Good() && Lawful(f)
      modifies this, buckets
      ensures Good() && (State(), was) == Delete(old(State()), key, f)
    {
      hide Inv, Cat, Vals;
      DeleteRefines(State(), key, f);
      InvFacts(State(), f);
      HashInRange(f.hash(key), capBits);
      var h := HashBits(f.hash(key), capBits);
      var found, i := FindEntry(key, h);
      if !found {
        return None;
      }
      was := Some(buckets[h][i]);
      Counted(State(), h, f);
      buckets[h] := buckets[h][..i] + buckets[h][i + 1..];
      sz := sz - 1;
      assert State() == RemoveAt(old(State()), h, i);
    }

    // hashmap__for_each_key_entry: the entries a caller sees for a key, in order
    method KeyEntries(key: int) returns (es: seq<Entry>)
      requires Good() && Lawful(f)
      ensures es == Vals(State(), key, f)
    {
      hide Inv, Cat, Vals, HashBits, Lawful, Locate, Pow2, Only;
      InvFacts(State(), f);
      HashInRange(f.hash(key), capBits);
      OwnBucket(State(), key, f);
      es := [];
      if buckets == null {
        return;
      }
      var h := HashBits(f.hash(key), capBits);
      var chain := buckets[h];
      OnlyDone(chain, key, f);
      for i := 0 to |chain|
        invariant es + Only(chain[i..], key, f) == Only(chain, key, f)
      {
        OnlyNext(chain, i, key, f);
        if f.equal(chain[i].key, key) {
          es := es + [chain[i]];
        }
      }
    }
  }

  lemma OnlyNext(chain: seq<Entry>, i: nat, key: int, f: Fns)
    requires i < |chain|
    ensures Only(chain[i..], key, f) == (if f.equal(chain[i].key, key) then [chain[i]] else []) + Only(chain[i + 1..], key, f)
  {
    assert chain[i..][1..] == chain[i + 1..];
  }

  lemma OnlyDone(chain: seq<Entry>, key: int, f: Fns)
    ensures chain[0..] == chain && Only(chain[|chain|..], key, f) == []
  {
  }

  lemma InvFacts(m: HMap, f: Fns)
    requires Inv(m, f)
    ensures m.bits <= MAX_CAP_BITS && (if m.buckets == [] then m.bits == 0 else |m.buckets| == Pow2(m.bits))
  {
  }

  lemma Counted(m: HMap, h: nat, f: Fns)
    requires Inv(m, f) && h < |m.buckets|
    ensures m.sz >= |m.buckets[h]|
  {
    CatAt(m.buckets, h);
  }

  lemma Nothing(buckets: seq<seq<Entry>>, bits: nat, f: Fns)
    ensures PutAll(buckets, Cat([]), bits, f) == buckets
  {
  }

  lemma CatOne(chain: seq<Entry>)
    ensures Cat([chain]) == chain
  {
    assert [chain][1..] == [];
  }

  lemma PutAllSnoc(buckets: seq<seq<Entry>>, es: seq<Entry>, e: Entry, bits: nat, f: Fns)
    ensures PutAll(buckets, es + [e], bits, f) == Put(PutAll(buckets, es, bits, f), e, bits, f)
  {
    assert (es + [e])[..|es|] == es;
  }

  lemma LocateIs(chain: seq<Entry>, key: int, i: nat, f: Fns)
    requires i <= |chain| && (forall j | 0 <= j < i :: !f.equal(chain[j].key, key))
      && (i < |chain| ==> f.equal(chain[i].key, key))
    ensures Locate(chain, key, f) == i
  {
  }
}
