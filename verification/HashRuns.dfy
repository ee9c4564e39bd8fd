/** Whole runs of the hash map: without APPEND it is a plain map; with it, the order in which a key's
    entries are found is last-inserted-first only until the table grows. */
module HashRuns {
  import opened HashModel
  import opened Powers
  import opened HashRefine
  import opened HashOps

  datatype Call =
    | InsertCall(key: int, value: int, strategy: Strategy, alloc: Alloc)
    | DeleteCall(key: int)
    | FindCall(key: int)
    | ClearCall

  function Step(m: HMap, c: Call, f: Fns): HMap {
    match c
    case InsertCall(key, value, strategy, alloc) => Insert(m, key, value, strategy, alloc, f).m
    case DeleteCall(key) => Delete(m, key, f).0
    case FindCall(_) => m
    case ClearCall => EMPTY
  }

  function Exec(cs: seq<Call>, f: Fns): HMap {
    if cs == [] then EMPTY else Step(Exec(cs[..|cs| - 1], f), cs[|cs| - 1], f)
  }

  lemma StepInv(m: HMap, c: Call, f: Fns)
    requires Inv(m, f) && Lawful(f)
    ensures Inv(Step(m, c, f), f)
  {
    hide Inv;
    match c
    case InsertCall(key, value, strategy, alloc) => InsertRefines(m, key, value, strategy, alloc, f);
    case DeleteCall(key) => DeleteRefines(m, key, f);
    case FindCall(_) =>
    case ClearCall => EmptyRefines(f);
  }

  // After any calls, whatever allocations failed: entries in their buckets, exact size, capacity a
  // power of two, at most three quarters full.
  lemma {:induction false} ExecInv(cs: seq<Call>, f: Fns)
    requires Lawful(f)
    ensures Inv(Exec(cs, f), f)
    decreases |cs|
  {
    if cs == [] {
      EmptyRefines(f);
    } else {
      ExecInv(cs[..|cs| - 1], f);
      StepInv(Exec(cs[..|cs| - 1], f), cs[|cs| - 1], f);
    }
  }

  // --- without APPEND: a map

  ghost predicate NoAppend(cs: seq<Call>) {
    forall c | c in cs :: c.InsertCall? ==> c.strategy != Append
  }

  // The last successful insertion of a key since it was last deleted.
  function Latest(cs: seq<Call>, k: int, f: Fns): Option<Entry> {
    if cs == [] then None else
    var n := |cs| - 1;
    var l := Latest(cs[..n], k, f);
    match cs[n]
    case InsertCall(key, value, strategy, alloc) =>
      if f.equal(key, k) && Insert(Exec(cs[..n], f), key, value, strategy, alloc, f).err == 0
        then Some(Entry(key, value)) else l
    case DeleteCall(key) => if f.equal(key, k) then None else l
    case FindCall(_) => l
    case ClearCall => None
  }

  function AsList(o: Option<Entry>): seq<Entry> {
    match o case None => [] case Some(e) => [e]
  }

  lemma {:induction false} LatestHeld(cs: seq<Call>, k: int, f: Fns)
    requires Lawful(f) && NoAppend(cs)
    ensures Vals(Exec(cs, f), k, f) == AsList(Latest(cs, k, f))
    decreases |cs|
  {
    hide Inv, Vals, Insert, Delete;
    if cs == [] {
      EmptyRefines(f);
    } else {
      var n := |cs| - 1;
      assert cs[n] in cs && forall c | c in cs[..n] :: c in cs;
      LatestHeld(cs[..n], k, f);
      ExecInv(cs[..n], f);
      var m := Exec(cs[..n], f);
      match cs[n]
      case InsertCall(key, value, strategy, alloc) =>
        InsertRefines(m, key, value, strategy, alloc, f);
        ShortReverse(Vals(m, k, f));
        if f.equal(key, k) { SameVals(m, key, k, f); }
      case DeleteCall(key) => DeleteRefines(m, key, f);
      case FindCall(_) =>
      case ClearCall => EmptyRefines(f);
    }
  }

  lemma ShortReverse(l: seq<Entry>)
    requires |l| <= 1
    ensures Reverse(l) == l
  {
    if l != [] {
      assert l[1..] == [];
    }
  }

  // Without APPEND no key has two entries, a find returns the latest one, ADD fails with -EEXIST and
  // UPDATE with -ENOENT exactly when they should, and both report the entry they found.
  lemma ActsAsMap(cs: seq<Call>, key: int, value: int, strategy: Strategy, alloc: Alloc, f: Fns)
    requires Lawful(f) && NoAppend(cs) && strategy != Append
    ensures Find(Exec(cs, f), key, f) == Latest(cs, key, f)
    ensures var r := Insert(Exec(cs, f), key, value, strategy, alloc, f);
      r.was == Latest(cs, key, f)
      && (r.err == -EEXIST <==> strategy == Add && Latest(cs, key, f).Some?)
      && (r.err == -ENOENT <==> strategy == Update && Latest(cs, key, f).None?)
    ensures Delete(Exec(cs, f), key, f).1 == Latest(cs, key, f)
  {
    hide Inv, Vals, Insert, Delete, Find, Exec, Latest;
    var m := Exec(cs, f);
    ExecInv(cs, f);
    LatestHeld(cs, key, f);
    FindIsFirst(m, key, f);
    InsertRefines(m, key, value, strategy, alloc, f);
    DeleteRefines(m, key, f);
  }

  // --- with APPEND

  // The call leaves the entries of key alone, except for their order.
  ghost predicate Spares(c: Call, key: int, f: Fns) {
    match c
    case InsertCall(k, _, _, _) => !f.equal(k, key)
    case DeleteCall(k) => !f.equal(k, key)
    case FindCall(_) => true
    case ClearCall => false
  }

  // How often the table grows.
  function Growths(m: HMap, cs: seq<Call>, f: Fns): nat
    decreases |cs|
  {
    if cs == [] then 0 else
    (match cs[0]
     case InsertCall(key, _, strategy, alloc) => if Grows(m, key, strategy, alloc, f) then 1 else 0
     case _ => 0)
    + Growths(Step(m, cs[0], f), cs[1..], f)
  }

  function ExecFrom(m: HMap, cs: seq<Call>, f: Fns): HMap
    decreases |cs|
  {
    if cs == [] then m else ExecFrom(Step(m, cs[0], f), cs[1..], f)
  }

  // Calls for other keys keep a key's entries in order or reverse them: each growth reverses.
  lemma {:induction false} ParityOrder(m: HMap, cs: seq<Call>, key: int, f: Fns)
    requires Inv(m, f) && Lawful(f) && forall c | c in cs :: Spares(c, key, f)
    ensures Inv(ExecFrom(m, cs, f), f)
    ensures var l := Vals(m, key, f);
      Vals(ExecFrom(m, cs, f), key, f) == if Growths(m, cs, f) % 2 == 0 then l else Reverse(l)
    decreases |cs|
  {
    hide Inv, Vals, Insert, Delete, Lawful, Reverse;
    if cs != [] {
      assert cs[0] in cs && forall c | c in cs[1..] :: c in cs;
      var m1 := Step(m, cs[0], f);
      StepInv(m, cs[0], f);
      match cs[0] {
        case InsertCall(k, value, strategy, alloc) =>
          InsertRefines(m, k, value, strategy, alloc, f);
        case DeleteCall(k) =>
          DeleteRefines(m, k, f);
        case FindCall(_) =>
        case ClearCall =>
      }
      ReverseTwice(Vals(m, key, f));
      ParityOrder(m1, cs[1..], key, f);
    }
  }

  // After an APPEND and calls for other keys, a find returns the last inserted entry if and only if
  // the table has grown an even number of times since, or the oldest entry is the same.
  lemma NewestFound(m: HMap, key: int, value: int, alloc: Alloc, cs: seq<Call>, f: Fns)
    requires Inv(m, f) && Lawful(f) && (forall c | c in cs :: Spares(c, key, f))
    requires Insert(m, key, value, Append, alloc, f).err == 0
    ensures var e, r := Entry(key, value), Insert(m, key, value, Append, alloc, f);
      var l := Vals(r.m, key, f);
      l != [] && l[0] == e
      && (Find(ExecFrom(r.m, cs, f), key, f) == Some(e) <==> Growths(r.m, cs, f) % 2 == 0 || l[|l| - 1] == e)
  {
    hide Inv, Vals, Insert, Find, Growths, ExecFrom, Spares;
    var r := Insert(m, key, value, Append, alloc, f);
    InsertRefines(m, key, value, Append, alloc, f);
    Reflexive(key, f);
    ParityOrder(r.m, cs, key, f);
    FindIsFirst(ExecFrom(r.m, cs, f), key, f);
    FirstOfReverse(Vals(r.m, key, f));
  }

  lemma Reflexive(key: int, f: Fns)
    requires Lawful(f)
    ensures f.equal(key, key)
  {
  }

  lemma {:induction false} FirstOfReverse(l: seq<Entry>)
    requires l != []
    ensures Reverse(l) != [] && Reverse(l)[0] == l[|l| - 1]
  {
    if |l| > 1 {
      FirstOfReverse(l[1..]);
    }
  }

  // The header promises the last inserted entry; here a third key makes the table grow, and the
  // find returns the first one.
  lemma OldestFound(f: Fns, k: int, x: int, y: int)
    requires Lawful(f) && !f.equal(x, k) && !f.equal(y, k)
    ensures var ok := Alloc(true, true);
      var cs := [InsertCall(k, 1, Append, ok), InsertCall(k, 2, Append, ok), InsertCall(x, 3, Append, ok),
        InsertCall(y, 4, Append, ok)];
      Find(ExecFrom(EMPTY, cs, f), k, f) == Some(Entry(k, 1))
  {
    hide Inv, Vals, Find, PutAll, Put, Lawful, Insert;
    assert Pow2(2) == 4;
    var ok := Alloc(true, true);
    var c1, c2, c3, c4 := InsertCall(k, 1, Append, ok), InsertCall(k, 2, Append, ok), InsertCall(x, 3, Append, ok),
      InsertCall(y, 4, Append, ok);
    var cs := [c1, c2, c3, c4];
    assert cs[1..] == [c2, c3, c4] && [c2, c3, c4][1..] == [c3, c4] && [c3, c4][1..] == [c4] && [c4][1..] == [];
    Reflexive(k, f);
    EmptyRefines(f);
    var m1 := AppendOk(EMPTY, k, 1, f);
    assert Vals(m1, k, f) == [Entry(k, 1)] && |m1.buckets| == 4;
    var a2 := AppendOk(m1, k, 2, f);
    var a3 := AppendOk(a2, x, 3, f);
    var a4 := AppendOk(a3, y, 4, f);
    assert Vals(a3, k, f) == [Entry(k, 2), Entry(k, 1)];
    FirstOfReverse(Vals(a3, k, f));
    FindIsFirst(a4, k, f);
    assert ExecFrom(EMPTY, cs, f) == ExecFrom(m1, [c2, c3, c4], f);
    assert ExecFrom(m1, [c2, c3, c4], f) == ExecFrom(a2, [c3, c4], f);
    assert ExecFrom(a2, [c3, c4], f) == ExecFrom(a3, [c4], f);
    assert ExecFrom(a3, [c4], f) == ExecFrom(a4, [], f);
  }

  function Appended(l: seq<Entry>, e: Entry, same: bool, grown: bool): seq<Entry> {
    (if same then [e] else []) + (if grown then Reverse(l) else l)
  }

  // A successful APPEND: it grows the table when that is three quarters full.
  lemma AppendOk(m: HMap, key: int, value: int, f: Fns) returns (m2: HMap)
    requires Inv(m, f) && Lawful(f) && NextBits(m) <= MAX_CAP_BITS
    ensures m2 == Step(m, InsertCall(key, value, Append, Alloc(true, true)), f) && Inv(m2, f) && m2.sz == m.sz + 1
    ensures |m2.buckets| == if NeedsToGrow(m) then Pow2(NextBits(m)) else |m.buckets|
    ensures m2.bits == if NeedsToGrow(m) then NextBits(m) else m.bits
    ensures forall k :: Vals(m2, k, f) == Appended(Vals(m, k, f), Entry(key, value), f.equal(key, k), NeedsToGrow(m))
  {
    hide Inv, Vals, Reverse;
    m2 := Step(m, InsertCall(key, value, Append, Alloc(true, true)), f);
    InsertRefines(m, key, value, Append, Alloc(true, true), f);
    forall k ensures Vals(m2, k, f) == Appended(Vals(m, k, f), Entry(key, value), f.equal(key, k), NeedsToGrow(m)) {
      assert [] + Vals(m, k, f) == Vals(m, k, f) && [] + Reverse(Vals(m, k, f)) == Reverse(Vals(m, k, f));
    }
  }
}
