/** The chained hash map as a value: buckets of chains, the four insertion strategies and growth. */
module HashModel {
  import opened Powers

  // Keys and values are pointers; what they point to is known to the two callbacks only.
  datatype Entry = Entry(key: int, value: int)

  datatype Fns = Fns(hash: int -> nat, equal: (int, int) -> bool)

  // The caller's callbacks: an equivalence whose equal keys hash equal, to a size_t.
  ghost predicate Lawful(f: Fns) {
    (forall a :: f.equal(a, a))
    && (forall a, b :: f.equal(a, b) ==> f.equal(b, a) && f.hash(a) == f.hash(b))
    && (forall a, b, c :: f.equal(a, b) && f.equal(b, c) ==> f.equal(a, c))
    && forall a :: f.hash(a) < TWO64
  }

  const GOLDEN: nat := 11400714819323198485
  const HASHMAP_MIN_CAP_BITS: nat := 2
  // calloc of more buckets than this exceeds the address space
  const MAX_CAP_BITS: nat := 60

  // hash_bits on a 64-bit machine
  function HashBits(h: nat, bits: nat): nat {
    hide Pow2;
    if bits == 0 || bits > 64 then 0 else h * GOLDEN % TWO64 / Pow2(64 - bits)
  }

  lemma MulMonotone(p: nat, q: nat, d: nat)
    ensures p <= q ==> p * d <= q * d
  {
  }

  lemma DivBelow(x: nat, d: nat, p: nat)
    requires d > 0 && x < p * d
    ensures x / d < p
  {
    MulMonotone(p, x / d, d);
    assert x / d * d <= x;
  }

  // The bucket index is always below the number of buckets.
  lemma HashInRange(h: nat, bits: nat)
    requires bits <= 64
    ensures HashBits(h, bits) < Pow2(bits)
  {
    if bits > 0 {
      hide Pow2;
      Pow64();
      Pow2Add(bits, 64 - bits);
      DivBelow(h * GOLDEN % TWO64, Pow2(64 - bits), Pow2(bits));
    }
  }

  // --- chains

  datatype HMap = HMap(buckets: seq<seq<Entry>>, bits: nat, sz: nat)

  const EMPTY: HMap := HMap([], 0, 0)

  // The first entry with an equal key, or the end of the chain.
  function Locate(chain: seq<Entry>, key: int, f: Fns): (i: nat)
    ensures i <= |chain|
    ensures i < |chain| ==> f.equal(chain[i].key, key)
    ensures forall j | 0 <= j < i :: !f.equal(chain[j].key, key)
  {
    if chain == [] || f.equal(chain[0].key, key) then 0 else 1 + Locate(chain[1..], key, f)
  }

  // The entries of a chain for one key.
  function Only(chain: seq<Entry>, key: int, f: Fns): seq<Entry> {
    if chain == [] then [] else
    (if f.equal(chain[0].key, key) then [chain[0]] else []) + Only(chain[1..], key, f)
  }

  // All entries, bucket by bucket.
  function Cat(buckets: seq<seq<Entry>>): seq<Entry> {
    if buckets == [] then [] else buckets[0] + Cat(buckets[1..])
  }

  // What the map holds for a key, in the order in which it is found.
  function Vals(m: HMap, key: int, f: Fns): seq<Entry> {
    Only(Cat(m.buckets), key, f)
  }

  function Reverse(s: seq<Entry>): seq<Entry> {
    if s == [] then [] else Reverse(s[1..]) + [s[0]]
  }

  function BucketOf(m: HMap, key: int, f: Fns): nat {
    HashBits(f.hash(key), m.bits)
  }

  // Every entry is in the bucket its hash names, sz counts all entries, and at most three quarters
  // of the capacity, a power of two, are used.
  ghost predicate Inv(m: HMap, f: Fns) {
    (if m.buckets == [] then m.bits == 0 else HASHMAP_MIN_CAP_BITS <= m.bits <= MAX_CAP_BITS && |m.buckets| == Pow2(m.bits))
    && (forall b | 0 <= b < |m.buckets| :: Placed(m.buckets[b], b, m.bits, f))
    && m.sz == |Cat(m.buckets)| && m.sz * 4 / 3 <= |m.buckets|
  }

  ghost predicate Placed(chain: seq<Entry>, b: nat, bits: nat, f: Fns) {
    forall e | e in chain :: HashBits(f.hash(e.key), bits) == b
  }

  // --- operations

  predicate NeedsToGrow(m: HMap) {
    |m.buckets| == 0 || (m.sz + 1) * 4 / 3 > |m.buckets|
  }

  function NextBits(m: HMap): nat {
    if m.bits + 1 < HASHMAP_MIN_CAP_BITS then HASHMAP_MIN_CAP_BITS else m.bits + 1
  }

  // hashmap_add_entry in the right bucket
  function Put(buckets: seq<seq<Entry>>, e: Entry, bits: nat, f: Fns): (r: seq<seq<Entry>>)
    ensures |r| == |buckets|
  {
    var h := HashBits(f.hash(e.key), bits);
    if h < |buckets| then buckets[h := [e] + buckets[h]] else buckets
  }

  // Entries moved to other buckets, one after the other.
  function PutAll(buckets: seq<seq<Entry>>, es: seq<Entry>, bits: nat, f: Fns): (r: seq<seq<Entry>>)
    ensures |r| == |buckets|
  {
    if es == [] then buckets else
    var n := |es| - 1;
    Put(PutAll(buckets, es[..n], bits, f), es[n], bits, f)
  }

  function NoEntries(n: nat): (r: seq<seq<Entry>>)
    ensures |r| == n && forall i | 0 <= i < n :: r[i] == []
  {
    seq(n, _ => [])
  }

  // hashmap_grow
  function Grow(m: HMap, f: Fns): HMap {
    var bits := NextBits(m);
    HMap(PutAll(NoEntries(Pow2(bits)), Cat(m.buckets), bits, f), bits, m.sz)
  }

  datatype Strategy = Add | Set | Update | Append

  // Whether the allocations of the bucket table and of the entry would succeed.
  datatype Alloc = Alloc(table: bool, entry: bool)

  datatype Option<T> = None | Some(value: T)

  const EEXIST: int := 17
  const ENOENT: int := 2
  const ENOMEM: int := 12

  datatype Inserted = Inserted(m: HMap, err: int, was: Option<Entry>)

  predicate CanGrow(m: HMap, alloc: Alloc) {
    alloc.table && NextBits(m) <= MAX_CAP_BITS
  }

  function Find(m: HMap, key: int, f: Fns): Option<Entry> {
    var h := BucketOf(m, key, f);
    if h >= |m.buckets| then None else
    var i := Locate(m.buckets[h], key, f);
    if i < |m.buckets[h]| then Some(m.buckets[h][i]) else None
  }

  // Entry i of bucket h replaced or removed.
  function SetAt(m: HMap, h: nat, i: nat, e: Entry): HMap
    requires h < |m.buckets| && i < |m.buckets[h]|
  {
    m.(buckets := m.buckets[h := m.buckets[h][i := e]])
  }

  function RemoveAt(m: HMap, h: nat, i: nat): HMap
    requires h < |m.buckets| && i < |m.buckets[h]| && m.sz > 0
  {
    m.(buckets := m.buckets[h := m.buckets[h][..i] + m.buckets[h][i + 1..]], sz := m.sz - 1)
  }

  // The new entry goes to the front of its chain.
  function AddFront(m: HMap, e: Entry, f: Fns): HMap {
    HMap(Put(m.buckets, e, m.bits, f), m.bits, m.sz + 1)
  }

  function AddEntry(m: HMap, e: Entry, alloc: Alloc, f: Fns): Inserted {
    if !alloc.entry then Inserted(m, -ENOMEM, None) else Inserted(AddFront(m, e, f), 0, None)
  }

  // hashmap__insert
  function Insert(m: HMap, key: int, value: int, strategy: Strategy, alloc: Alloc, f: Fns): Inserted {
    var e := Entry(key, value);
    var was := if strategy == Append then None else Find(m, key, f);
    if was.Some? then
      if strategy == Add then Inserted(m, -EEXIST, was)
      else
        var h := BucketOf(m, key, f);
        Inserted(SetAt(m, h, Locate(m.buckets[h], key, f), e), 0, was)
    else if strategy == Update then Inserted(m, -ENOENT, None)
    else if !NeedsToGrow(m) then AddEntry(m, e, alloc, f)
    else if !CanGrow(m, alloc) then Inserted(m, -ENOMEM, None)
    else AddEntry(Grow(m, f), e, alloc, f)
  }

  // hashmap__delete
  function Delete(m: HMap, key: int, f: Fns): (HMap, Option<Entry>) {
    var was := Find(m, key, f);
    var h := BucketOf(m, key, f);
    if was.None? || m.sz == 0 then (m, None) else (RemoveAt(m, h, Locate(m.buckets[h], key, f)), was)
  }
}
