/** Generating the minimised BTF: the marked types in order, composites with their marked members
    only, and all type ids renumbered in place. */
module BtfOut {
  import opened BtfTypes
  import opened BtfMark

  // Kept types with ids below i.
  function Count(kept: set<Id>, i: Id): nat {
    if i <= 1 then 0 else Count(kept, i - 1) + (if i - 1 in kept then 1 else 0)
  }

  // The id of a type in the output; void stands for every type that is not kept.
  function NewId(kept: set<Id>, i: Id): Id {
    if i in kept then 1 + Count(kept, i) else 0
  }

  function NewIds(kept: set<Id>, n: nat): (ids: seq<Id>)
    ensures |ids| == n && forall i | 0 <= i < n :: ids[i] == NewId(kept, i)
  {
    seq(n, i requires 0 <= i < n => NewId(kept, i))
  }

  predicate IsBitfield(off: nat, size: nat) {
    size != 0 || off % 8 != 0
  }

  // What btf__add_field accepts.
  predicate Addable(isUnion: bool, off: nat, size: nat) {
    (IsBitfield(off, size) ==> 0 < size <= 255 && off < TWO24) && (isUnion ==> off == 0)
  }

  // bit_offset | (bit_size << 24): the bits do not overlap in an addable field.
  function Encode(name: Name, typ: Id, off: nat, size: nat): Member {
    Member(name, typ, off + size * TWO24)
  }

  // The kept ones of the first n members, encoded anew.
  function Filter(kflag: bool, ms: seq<Member>, keep: set<nat>, n: nat): (r: seq<Member>)
    requires n <= |ms|
    ensures |r| == Rank(keep, n)
  {
    if n == 0 then [] else
    var m := ms[n - 1];
    Filter(kflag, ms, keep, n - 1)
    + (if n - 1 in keep then [Encode(m.name, m.typ, BitOffset(kflag, m), BitSize(kflag, m))] else [])
  }

  // Members kept before member n: its index in the output.
  function Rank(keep: set<nat>, n: nat): nat {
    if n == 0 then 0 else Rank(keep, n - 1) + (if n - 1 in keep then 1 else 0)
  }

  // Some of the first n members is kept and a bitfield.
  predicate AnyBitfield(kflag: bool, ms: seq<Member>, keep: set<nat>, n: nat)
    requires n <= |ms|
  {
    exists k | 0 <= k < n :: k in keep && IsBitfield(BitOffset(kflag, ms[k]), BitSize(kflag, ms[k]))
  }

  ghost predicate AllAddable(isUnion: bool, kflag: bool, ms: seq<Member>, keep: set<nat>, n: nat)
    requires n <= |ms|
  {
    forall k | 0 <= k < n && k in keep :: Addable(isUnion, BitOffset(kflag, ms[k]), BitSize(kflag, ms[k]))
  }

  // A type without the members that are not kept; ids are still those of the source.
  ghost function Shrunk(t: Type, keep: set<nat>): Type {
    match t.body
    case Composite(isUnion, size, kflag, ms) =>
      Type(t.name, Composite(isUnion, size, AnyBitfield(kflag, ms, keep, |ms|), Filter(kflag, ms, keep, |ms|)))
    case _ => t
  }

  // btf__add_type and its relatives, over the first n types.
  ghost function Picked(src: seq<Type>, kept: set<Id>, mems: set<(Id, nat)>, n: nat): seq<Type>
    requires n <= |src|
  {
    if n <= 1 then [Type(Str(""), Void)] else
    Picked(src, kept, mems, n - 1) + (if n - 1 in kept then [Shrunk(src[n - 1], MembersOf(mems, n - 1))] else [])
  }

  // All ids of a type are below n.
  predicate Below(b: Body, n: nat) {
    match b
    case Ptr(to) => to < n
    case Mod(_, to) => to < n
    case Typedef(to) => to < n
    case Array(elem, index, _) => elem < n && index < n
    case Composite(_, _, _, ms) => forall k | 0 <= k < |ms| :: ms[k].typ < n
    case FuncProto(ret, ps) => ret < n && forall k | 0 <= k < |ps| :: ps[k].typ < n
    case Other(_, refs) => forall k | 0 <= k < |refs| :: refs[k] < n
    case _ => true
  }

  lemma AllBelow(s: seq<Id>, n: nat)
    ensures (forall x | x in s :: x < n) <==> forall k | 0 <= k < |s| :: s[k] < n
  {
    if forall x | x in s :: x < n {
      forall k | 0 <= k < |s| ensures s[k] < n {
        assert s[k] in s;
      }
    }
  }

  lemma ProtoBelow(ret: Id, ps: seq<Param>, n: nat)
    ensures (forall k | 0 <= k < |ps| + 1 :: ([ret] + ParamIds(ps))[k] < n)
      <==> ret < n && forall k | 0 <= k < |ps| :: ps[k].typ < n
  {
    var s := [ret] + ParamIds(ps);
    assert s[0] == ret;
    forall k | 0 <= k < |ps| ensures s[k + 1] == ps[k].typ {
    }
    if ret < n && forall k | 0 <= k < |ps| :: ps[k].typ < n {
      forall k | 0 <= k < |ps| + 1 ensures s[k] < n {
        assert k == 0 || s[k] == ps[k - 1].typ;
      }
    } else if ret < n {
      var k :| 0 <= k < |ps| && ps[k].typ >= n;
      assert s[k + 1] >= n;
    }
  }

  lemma BelowIs(b: Body, n: nat)
    ensures Below(b, n) <==> forall x | x in Refs(b) :: x < n
  {
    AllBelow(Refs(b), n);
    match b
    case Ptr(to) => assert Refs(b)[0] == to;
    case Mod(_, to) => assert Refs(b)[0] == to;
    case Typedef(to) => assert Refs(b)[0] == to;
    case Array(elem, index, _) => assert Refs(b)[0] == elem && Refs(b)[1] == index;
    case Composite(_, _, _, ms) => assert forall k | 0 <= k < |ms| :: Refs(b)[k] == ms[k].typ;
    case FuncProto(ret, ps) => ProtoBelow(ret, ps, n);
    case _ =>
  }

  // btf_type_visit_type_ids with btfgen_remap_id
  function Renumber(b: Body, ids: seq<Id>): Body
    requires Below(b, |ids|)
  {
    match b
    case Ptr(to) => Ptr(ids[to])
    case Mod(mod, to) => Mod(mod, ids[to])
    case Typedef(to) => Typedef(ids[to])
    case Array(elem, index, n) => Array(ids[elem], ids[index], n)
    case Composite(u, size, kflag, ms) =>
      Composite(u, size, kflag, seq(|ms|, k requires 0 <= k < |ms| => ms[k].(typ := ids[ms[k].typ])))
    case FuncProto(ret, ps) =>
      FuncProto(ids[ret], seq(|ps|, k requires 0 <= k < |ps| => ps[k].(typ := ids[ps[k].typ])))
    case Other(kind, refs) => Other(kind, seq(|refs|, k requires 0 <= k < |refs| => ids[refs[k]]))
    case _ => b
  }

  // Every reference is looked up, and nothing else.
  lemma RenumberedRefs(b: Body, ids: seq<Id>)
    requires Below(b, |ids|)
    ensures |Refs(Renumber(b, ids))| == |Refs(b)|
    ensures forall k | 0 <= k < |Refs(b)| :: Refs(b)[k] < |ids| && Refs(Renumber(b, ids))[k] == ids[Refs(b)[k]]
  {
    BelowIs(b, |ids|);
    assert |Refs(Renumber(b, ids))| == |Refs(b)|;
    forall k | 0 <= k < |Refs(b)| ensures Refs(b)[k] < |ids| && Refs(Renumber(b, ids))[k] == ids[Refs(b)[k]] {
      assert Refs(b)[k] in Refs(b);
      OneRef(b, ids, k);
    }
  }

  lemma OneRef(b: Body, ids: seq<Id>, k: nat)
    requires Below(b, |ids|) && k < |Refs(b)| == |Refs(Renumber(b, ids))| && Refs(b)[k] < |ids|
    ensures Refs(Renumber(b, ids))[k] == ids[Refs(b)[k]]
  {
    var r := Renumber(b, ids);
    hide Below, Renumber;
    match b
    case Composite(_, _, _, ms) => assert r.Composite? && r.members[k].typ == ids[ms[k].typ] by { RenumberedMember(b, ids, k); }
    case FuncProto(_, ps) =>
      if k > 0 { RenumberedParam(b, ids, k - 1); } else { RenumberedPlain(b, ids); }
    case _ => RenumberedPlain(b, ids);
  }

  lemma RenumberedMember(b: Body, ids: seq<Id>, k: nat)
    requires b.Composite? && Below(b, |ids|) && k < |b.members| && b.members[k].typ < |ids|
    ensures var r := Renumber(b, ids); r.Composite? && |r.members| == |b.members| && r.members[k].typ == ids[b.members[k].typ]
  {
  }

  lemma RenumberedParam(b: Body, ids: seq<Id>, k: nat)
    requires b.FuncProto? && Below(b, |ids|) && k < |b.params| && b.params[k].typ < |ids|
    ensures var r := Renumber(b, ids); r.FuncProto? && |r.params| == |b.params| && r.params[k].typ == ids[b.params[k].typ]
  {
  }

  lemma RenumberedPlain(b: Body, ids: seq<Id>)
    requires !b.Composite? && Below(b, |ids|)
    ensures var r := Renumber(b, ids);
      (b.Ptr? ==> b.to < |ids| && r == Ptr(ids[b.to])) && (b.Mod? ==> b.to < |ids| && r == Mod(b.mod, ids[b.to]))
      && (b.Typedef? ==> b.to < |ids| && r == Typedef(ids[b.to]))
      && (b.Array? ==> b.elem < |ids| && b.index < |ids| && r == Array(ids[b.elem], ids[b.index], b.nelems))
      && (b.FuncProto? ==> b.ret < |ids| && r.FuncProto? && r.ret == ids[b.ret])
      && (b.Other? ==>
            r.Other? && |r.refs| == |b.refs|
            && forall k | 0 <= k < |b.refs| :: b.refs[k] < |ids| && r.refs[k] == ids[b.refs[k]])
      && (Refs(b) == [] ==> r == b)
  {
  }

  // The references of a type are mapped back.
  predicate MappedBack(b: Body, ids: seq<Id>, back: seq<Id>) {
    forall k | 0 <= k < |Refs(b)| :: Refs(b)[k] < |ids| && ids[Refs(b)[k]] < |back| && back[ids[Refs(b)[k]]] == Refs(b)[k]
  }

  lemma CompositeBack(b: Body, ids: seq<Id>, back: seq<Id>)
    requires b.Composite? && Below(b, |ids|) && MappedBack(b, ids, back)
    ensures Below(Renumber(b, ids), |back|) && Renumber(Renumber(b, ids), back) == b
  {
    var ms, r := b.members, Renumber(b, ids);
    forall k | 0 <= k < |ms| ensures ids[ms[k].typ] < |back| && back[ids[ms[k].typ]] == ms[k].typ {
      assert Refs(b)[k] == ms[k].typ;
    }
    assert Renumber(r, back).members == ms;
  }

  lemma ProtoBack(b: Body, ids: seq<Id>, back: seq<Id>)
    requires b.FuncProto? && Below(b, |ids|) && MappedBack(b, ids, back)
    ensures Below(Renumber(b, ids), |back|) && Renumber(Renumber(b, ids), back) == b
  {
    var ps, r, refs := b.params, Renumber(b, ids), Refs(b);
    assert refs[0] == b.ret;
    forall k | 0 <= k < |ps| ensures ids[ps[k].typ] < |back| && back[ids[ps[k].typ]] == ps[k].typ {
      assert refs[k + 1] == ps[k].typ;
    }
    assert Renumber(r, back).params == ps;
  }

  // Nothing but the references changes: mapped back, the type is the same again.
  lemma RenumberedBack(b: Body, ids: seq<Id>, back: seq<Id>)
    requires Below(b, |ids|) && MappedBack(b, ids, back)
    ensures Below(Renumber(b, ids), |back|) && Renumber(Renumber(b, ids), back) == b
  {
    if b.Composite? {
      CompositeBack(b, ids, back);
    } else if b.FuncProto? {
      ProtoBack(b, ids, back);
    } else if b.Other? {
      assert Renumber(Renumber(b, ids), back).refs == b.refs;
    } else if b.Array? {
      assert Refs(b)[0] == b.elem && Refs(b)[1] == b.index;
    } else if Refs(b) != [] {
      assert Refs(b)[0] == b.to;
    }
  }

  // --- the ids

  lemma {:induction false} CountMonotone(kept: set<Id>, i: Id, j: Id)
    requires i <= j
    ensures Count(kept, i) <= Count(kept, j)
    ensures 0 < i < j && i in kept ==> Count(kept, i) < Count(kept, j)
    decreases j
  {
    if i < j {
      CountMonotone(kept, i, j - 1);
    }
  }

  // New ids rise with the old ones, and only they: no two kept types share an id.
  lemma IdsIncrease(kept: set<Id>, i: Id, j: Id)
    requires 0 < i < j && i in kept && j in kept
    ensures 0 < NewId(kept, i) < NewId(kept, j)
  {
    CountMonotone(kept, i, j);
  }

  // New ids are in range, and every id of the output but 0 belongs to a kept type.
  lemma {:induction false} IdsAreExact(kept: set<Id>, n: nat, j: nat) returns (i: Id)
    requires 0 < j <= Count(kept, n)
    ensures 0 < i < n && i in kept && NewId(kept, i) == j
    decreases n
  {
    if j <= Count(kept, n - 1) {
      i := IdsAreExact(kept, n - 1, j);
    } else {
      i := n - 1;
    }
  }

  lemma IdsInRange(kept: set<Id>, n: nat, i: Id)
    requires i < n && (i == 0 ==> i !in kept)
    ensures NewId(kept, i) <= Count(kept, n)
  {
    CountMonotone(kept, i, n);
  }

  lemma {:induction false} RankMonotone(keep: set<nat>, i: nat, j: nat)
    requires i <= j
    ensures Rank(keep, i) <= Rank(keep, j)
    ensures i < j && i in keep ==> Rank(keep, i) < Rank(keep, j)
    decreases j
  {
    if i < j {
      RankMonotone(keep, i, j - 1);
    }
  }

  // A kept member stands at its rank.
  lemma {:induction false} FilterAt(kflag: bool, ms: seq<Member>, keep: set<nat>, n: nat, k: nat)
    requires k < n <= |ms| && k in keep
    ensures Rank(keep, k) < Rank(keep, n)
    ensures Filter(kflag, ms, keep, n)[Rank(keep, k)]
      == Encode(ms[k].name, ms[k].typ, BitOffset(kflag, ms[k]), BitSize(kflag, ms[k]))
    decreases n
  {
    RankMonotone(keep, k, n);
    if k < n - 1 {
      FilterAt(kflag, ms, keep, n - 1, k);
    }
  }

  // Nothing else does.
  lemma {:induction false} FilterOnly(kflag: bool, ms: seq<Member>, keep: set<nat>, n: nat, j: nat) returns (k: nat)
    requires n <= |ms| && j < Rank(keep, n)
    ensures k < n && k in keep && Rank(keep, k) == j
    decreases n
  {
    if j < Rank(keep, n - 1) {
      k := FilterOnly(kflag, ms, keep, n - 1, j);
    } else {
      k := n - 1;
    }
  }

  lemma {:induction false} PickedAt(src: seq<Type>, kept: set<Id>, mems: set<(Id, nat)>, n: nat, i: Id)
    requires n <= |src| && 0 < i < n && i in kept
    ensures NewId(kept, i) < |Picked(src, kept, mems, n)|
    ensures Picked(src, kept, mems, n)[NewId(kept, i)] == Shrunk(src[i], MembersOf(mems, i))
    decreases n
  {
    PickedLength(src, kept, mems, n - 1);
    if i < n - 1 {
      PickedAt(src, kept, mems, n - 1, i);
    }
  }

  lemma {:induction false} PickedLength(src: seq<Type>, kept: set<Id>, mems: set<(Id, nat)>, n: nat)
    requires n <= |src|
    ensures |Picked(src, kept, mems, n)| == 1 + Count(kept, n)
  {
    if n > 1 {
      PickedLength(src, kept, mems, n - 1);
    }
  }

  // Every output type is a kept one.
  lemma {:induction false} PickedOnly(src: seq<Type>, kept: set<Id>, mems: set<(Id, nat)>, n: nat, j: nat) returns (i: Id)
    requires n <= |src| && 0 < j < |Picked(src, kept, mems, n)|
    ensures 0 < i < n && i in kept && NewId(kept, i) == j
    decreases n
  {
    PickedLength(src, kept, mems, n - 1);
    if j < |Picked(src, kept, mems, n - 1)| {
      i := PickedOnly(src, kept, mems, n - 1, j);
    } else {
      i := n - 1;
    }
  }

  // What btf__add_field accepts is what the encoding can hold: bitfields of some size that read back as
  // they were from 32 bits, other members at whole bytes, and in unions nothing behind the start.
  lemma AddableIsLossless(isUnion: bool, off: nat, size: nat)
    ensures Addable(isUnion, off, size) <==>
      (isUnion ==> off == 0)
      && (size != 0 || off % 8 != 0 ==>
            size != 0
            && var m := Encode(Str(""), 0, off, size);
              m.offset < TWO32 && BitOffset(true, m) == off && BitSize(true, m) == size)
  {
    var x := off + size * TWO24;
    if off < TWO24 {
      assert x % TWO24 == off && x / TWO24 == size;
    }
  }

  // Encoding a kept member anew changes neither its bit offset nor its bitfield size, although the
  // composite may lose its kflag: it keeps it exactly if a bitfield is kept.
  lemma EncodeExact(isUnion: bool, kflag: bool, ms: seq<Member>, keep: set<nat>, k: nat)
    requires k < |ms| && k in keep && AllAddable(isUnion, kflag, ms, keep, |ms|) && forall m | m in ms :: m.offset < TWO32
    ensures var m := ms[k];
      var e, flag := Encode(m.name, m.typ, BitOffset(kflag, m), BitSize(kflag, m)), AnyBitfield(kflag, ms, keep, |ms|);
      BitOffset(flag, e) == BitOffset(kflag, m) && BitSize(flag, e) == BitSize(kflag, m) && e.offset < TWO32
  {
    var m := ms[k];
    assert Addable(isUnion, BitOffset(kflag, m), BitSize(kflag, m)) && m in ms;
    var off, size := BitOffset(kflag, m), BitSize(kflag, m);
    if AnyBitfield(kflag, ms, keep, |ms|) {
      var j :| 0 <= j < |ms| && j in keep && IsBitfield(BitOffset(kflag, ms[j]), BitSize(kflag, ms[j]));
      assert kflag;
      assert (off + size * TWO24) % TWO24 == off && (off + size * TWO24) / TWO24 == size;
    } else {
      assert !IsBitfield(off, size);
    }
  }
}
