/** The output BTF under construction, and btfgen_get_btf. */
module BtfGet {
  import opened BtfTypes
  import opened BtfMark
  import opened BtfOut

  const VOID: Type := Type(Str(""), Void)

  // Every kept composite can be rebuilt.
  ghost predicate Generable(src: seq<Type>, kept: set<Id>, mems: set<(Id, nat)>, n: nat) {
    forall i | 0 < i < n && i < |src| && i in kept :: Rebuildable(src[i].body, MembersOf(mems, i))
  }

  ghost predicate Rebuildable(b: Body, keep: set<nat>) {
    b.Composite? ==> AllAddable(b.isUnion, b.kflag, b.members, keep, |b.members|)
  }

  // The output has exactly the kept types, in order, shrunk and renumbered.
  ghost predicate Generated(src: seq<Type>, kept: set<Id>, mems: set<(Id, nat)>, out: seq<Type>) {
    |out| == 1 + Count(kept, |src|) && out[0] == VOID && forall i | i in kept :: GeneratedAt(src, kept, mems, out, i)
  }

  ghost predicate GeneratedAt(src: seq<Type>, kept: set<Id>, mems: set<(Id, nat)>, out: seq<Type>, i: Id) {
    0 < i < |src| && NewId(kept, i) < |out|
    && var t := Shrunk(src[i], MembersOf(mems, i));
       Below(t.body, |src|) && out[NewId(kept, i)] == Type(src[i].name, Renumber(t.body, NewIds(kept, |src|)))
  }

  lemma {:induction false} FilterBelow(kflag: bool, ms: seq<Member>, keep: set<nat>, n: nat, bound: nat)
    requires n <= |ms| && forall k | 0 <= k < |ms| :: ms[k].typ < bound
    ensures forall k | 0 <= k < |Filter(kflag, ms, keep, n)| :: Filter(kflag, ms, keep, n)[k].typ < bound
  {
    if n > 0 {
      FilterBelow(kflag, ms, keep, n - 1, bound);
    }
  }

  lemma ShrunkBelow(src: seq<Type>, i: Id, keep: set<nat>)
    requires ValidBtf(src) && 0 < i < |src|
    ensures Below(Shrunk(src[i], keep).body, |src|)
  {
    assert ValidType(|src|, src[i]);
    BelowIs(src[i].body, |src|);
    if src[i].body.Composite? {
      FilterBelow(src[i].body.kflag, src[i].body.members, keep, |src[i].body.members|, |src|);
    }
  }

  class Btf {
    var types: seq<Type>

    // btf__new_empty
    constructor ()
      ensures types == [VOID]
    {
      types := [VOID];
    }

    // btf__add_struct, btf__add_union
    method AddComposite(name: Name, size: nat, isUnion: bool) returns (id: Id)
      modifies this
      ensures types == old(types) + [Type(name, Composite(isUnion, size, false, []))] && id == |old(types)|
    {
      id := |types|;
      types := types + [Type(name, Composite(isUnion, size, false, []))];
    }

    // btf__add_type
    method AddType(t: Type) returns (id: Id)
      modifies this
      ensures types == old(types) + [t] && id == |old(types)|
    {
      id := |types|;
      types := types + [t];
    }

    // btf__add_field: to the last type, which has to be a composite
    method AddField(name: Name, typ: Id, off: nat, size: nat) returns (err: int)
      requires types != []
      modifies this
      ensures var last := old(types)[|old(types)| - 1];
        (err == 0 <==>
           |old(types)| > 1 && last.body.Composite? && typ <= BTF_MAX_NR_TYPES && Addable(last.body.isUnion, off, size))
        && (err == 0 ==>
              types == old(types)[..|old(types)| - 1]
                + [last.(body := last.body.(members := last.body.members + [Encode(name, typ, off, size)],
                                            kflag := IsBitfield(off, size) || last.body.kflag))])
    {
      if |types| == 1 {
        return -EINVAL;
      }
      var n := |types| - 1;
      var b := types[n].body;
      if !b.Composite? || typ > BTF_MAX_NR_TYPES {
        return -EINVAL;
      }
      if IsBitfield(off, size) && (size == 0 || size > 255 || off > 0xffffff) {
        return -EINVAL;
      }
      if b.isUnion && off != 0 {
        return -EINVAL;
      }
      var m := Encode(name, typ, off, size);
      var b2 := b.(members := b.members + [m], kflag := IsBitfield(off, size) || b.kflag);
      types := types[n := types[n].(body := b2)];
      err := 0;
    }

    // The fields of the composite just added: those marked in the clone.
    method AddMarkedFields(t: Type, clone: Type, ghost keep: set<nat>) returns (err: int)
      requires t.body.Composite? && (forall m | m in t.body.members :: m.name != Marked && m.typ <= BTF_MAX_NR_TYPES)
      requires clone.body == t.body.(members := MarkMembers(t.body.members, keep))
      requires |types| > 1 && types[|types| - 1] == Type(t.name, Composite(t.body.isUnion, t.body.size, false, []))
      modifies this
      ensures err == 0 <==> Rebuildable(t.body, keep)
      ensures err == 0 ==> types == old(types)[..|old(types)| - 1] + [Shrunk(t, keep)]
    {
      hide Partly, Addable, Encode, Shrunk, Filter, AnyBitfield, MarkMembers, BitOffset, BitSize;
      err := 0;
      var b, ms := t.body, t.body.members;
      ghost var front := types[..|types| - 1];
      PartlyNone(t, keep);
      assert types == front + [Partly(t, keep, 0)];
      for k := 0 to |ms|
        invariant err == 0 && AllAddable(b.isUnion, b.kflag, ms, keep, k)
        invariant types == front + [Partly(t, keep, k)]
      {
        err := AddMarkedField(t, clone, k, keep, front);
        if err != 0 {
          return;
        }
      }
      PartlyAll(t, keep);
    }

    // Member k, if it is marked.
    method AddMarkedField(t: Type, clone: Type, k: nat, ghost keep: set<nat>, ghost front: seq<Type>) returns (err: int)
      requires t.body.Composite? && (forall m | m in t.body.members :: m.name != Marked && m.typ <= BTF_MAX_NR_TYPES)
      requires clone.body == t.body.(members := MarkMembers(t.body.members, keep))
      requires k < |t.body.members| && front != [] && types == front + [Partly(t, keep, k)]
      modifies this
      ensures var b, m := t.body, t.body.members[k];
        err == 0 <==> (k in keep ==> Addable(b.isUnion, BitOffset(b.kflag, m), BitSize(b.kflag, m)))
      ensures err == 0 ==> types == front + [Partly(t, keep, k + 1)]
    {
      hide Partly, Addable, Encode, IsBitfield;
      var b, m, c := t.body, t.body.members[k], clone.body.members[k];
      assert m in b.members;
      PartlyStep(t, keep, k);
      err := 0;
      if c.name == Marked {
        err := AddField(m.name, m.typ, BitOffset(b.kflag, c), BitSize(b.kflag, c));
      }
    }

    // btf_type_visit_type_ids with btfgen_remap_id, on type i
    method VisitTypeIds(i: Id, ids: array<Id>)
      requires 0 < i < |types| && Below(types[i].body, ids.Length)
      modifies this
      ensures types == old(types)[i := Type(old(types)[i].name, Renumber(old(types)[i].body, ids[..]))]
    {
      types := types[i := Type(types[i].name, Renumber(types[i].body, ids[..]))];
    }
  }

  // A composite with those of its first k members that are kept.
  ghost function Partly(t: Type, keep: set<nat>, k: nat): Type
    requires t.body.Composite? && k <= |t.body.members|
  {
    var b := t.body;
    Type(t.name, Composite(b.isUnion, b.size, AnyBitfield(b.kflag, b.members, keep, k), Filter(b.kflag, b.members, keep, k)))
  }

  lemma PartlyNone(t: Type, keep: set<nat>)
    requires t.body.Composite?
    ensures Partly(t, keep, 0) == Type(t.name, Composite(t.body.isUnion, t.body.size, false, []))
  {
  }

  lemma PartlyAll(t: Type, keep: set<nat>)
    requires t.body.Composite?
    ensures Partly(t, keep, |t.body.members|) == Shrunk(t, keep)
  {
  }

  lemma PartlyStep(t: Type, keep: set<nat>, k: nat)
    requires t.body.Composite? && k < |t.body.members|
    ensures var p, b, m := Partly(t, keep, k), t.body, t.body.members[k];
      var off, size := BitOffset(b.kflag, m), BitSize(b.kflag, m);
      p.body.Composite? && p.body.isUnion == b.isUnion
      && Partly(t, keep, k + 1) ==
         if k in keep then
           p.(body := p.body.(members := p.body.members + [Encode(m.name, m.typ, off, size)],
             kflag := IsBitfield(off, size) || p.body.kflag))
         else p
  {
    var b := t.body;
    assert AnyBitfield(b.kflag, b.members, keep, k + 1) <==>
      AnyBitfield(b.kflag, b.members, keep, k)
      || (k in keep && IsBitfield(BitOffset(b.kflag, b.members[k]), BitSize(b.kflag, b.members[k])));
  }

  // First pass: the marked types and their new ids.
  method PickTypes(info: Info, out: Btf, ids: array<Id>) returns (err: int)
    requires info.Valid() && ValidBtf(info.src) && out.types == [VOID]
    requires ids.Length == |info.src| && forall j | 0 <= j < ids.Length :: ids[j] == 0
    modifies out, ids
    ensures err == 0 <==> Generable(info.src, info.kept, info.mems, |info.src|)
    ensures err == 0 ==> out.types == Picked(info.src, info.kept, info.mems, |info.src|)
    ensures err == 0 ==> ids[..] == NewIds(info.kept, |info.src|)
  {
    hide Addable, BitOffset, BitSize, MarkMembers, Filter, AnyBitfield, AllAddable, MembersOf;
    err := 0;
    var i := 1;
    while i < |info.src|
      invariant 1 <= i <= |info.src| && err == 0
      invariant out.types == Picked(info.src, info.kept, info.mems, i)
      invariant Generable(info.src, info.kept, info.mems, i)
      invariant forall j | 0 <= j < ids.Length :: ids[j] == if j < i then NewId(info.kept, j) else 0
    {
      var clone, t := info.marked[i], info.src[i];
      ghost var keep := MembersOf(info.mems, i);
      assert clone == WithMarks(t, i in info.kept, keep) && ValidType(|info.src|, t);
      if clone.name == Marked {
        var newId;
        PickedLength(info.src, info.kept, info.mems, i);
        if t.body.Composite? {
          BelowIs(t.body, |info.src|);
          ghost var before := out.types;
          newId := out.AddComposite(t.name, t.body.size, t.body.isUnion);
          err := out.AddMarkedFields(t, clone, keep);
          if err != 0 {
            return;
          }
          assert out.types == before + [Shrunk(t, keep)];
        } else {
          newId := out.AddType(t);
        }
        ids[i] := newId;
      }
      i := i + 1;
    }
  }

  // Second pass: the types refer to each other by their new ids.
  method RemapTypes(out: Btf, ids: array<Id>)
    requires out.types != [] && forall j | 0 < j < |out.types| :: Below(out.types[j].body, ids.Length)
    modifies out
    ensures |out.types| == |old(out.types)| && out.types[0] == old(out.types[0])
    ensures forall j | 0 < j < |out.types| :: Remapped(old(out.types), out.types, j, ids[..])
  {
    hide Renumber, Below;
    var i := 1;
    ghost var before := out.types;
    while i < |out.types|
      invariant 1 <= i <= |out.types| == |before| && out.types[0] == before[0]
      invariant forall j | 0 < j < i :: Remapped(before, out.types, j, ids[..])
      invariant forall j | i <= j < |before| :: out.types[j] == before[j]
    {
      ghost var was := out.types;
      out.VisitTypeIds(i, ids);
      forall j | 0 < j <= i ensures Remapped(before, out.types, j, ids[..]) {
        if j < i { assert Remapped(before, was, j, ids[..]); }
      }
      i := i + 1;
    }
  }

  ghost predicate Remapped(before: seq<Type>, after: seq<Type>, j: nat, ids: seq<Id>) {
    j < |before| && j < |after| && Below(before[j].body, |ids|)
    && after[j] == Type(before[j].name, Renumber(before[j].body, ids))
  }

  lemma PickedBelow(src: seq<Type>, kept: set<Id>, mems: set<(Id, nat)>)
    requires ValidBtf(src)
    ensures var p := Picked(src, kept, mems, |src|); forall j | 0 < j < |p| :: Below(p[j].body, |src|)
  {
    hide Shrunk, Below;
    var p := Picked(src, kept, mems, |src|);
    forall j | 0 < j < |p| ensures Below(p[j].body, |src|) {
      var i := PickedOnly(src, kept, mems, |src|, j);
      PickedAt(src, kept, mems, |src|, i);
      ShrunkBelow(src, i, MembersOf(mems, i));
    }
  }

  // btfgen_get_btf: fails exactly if btf__add_field refuses a marked member.
  method GetBtf(info: Info) returns (err: int, out: Btf)
    requires info.Valid() && ValidBtf(info.src)
    ensures fresh(out)
    ensures err == 0 <==> Generable(info.src, info.kept, info.mems, |info.src|)
    ensures err == 0 ==> Generated(info.src, info.kept, info.mems, out.types)
  {
    hide Generable, Renumber, Below, Shrunk, Remapped;
    out := new Btf();
    var ids := new Id[|info.src|](_ => 0);
    err := PickTypes(info, out, ids);
    if err != 0 {
      return;
    }
    PickedBelow(info.src, info.kept, info.mems);
    PickedLength(info.src, info.kept, info.mems, |info.src|);
    ghost var picked := out.types;
    PickedVoid(info.src, info.kept, info.mems, |info.src|);
    ghost var newIds := ids[..];
    assert forall i | i in info.kept :: 0 < i < |info.src|;
    RemapTypes(out, ids);
    assert ids[..] == newIds == NewIds(info.kept, |info.src|);
    forall i | i in info.kept ensures GeneratedAt(info.src, info.kept, info.mems, out.types, i) {
      AtNewId(info.src, info.kept, info.mems, picked, out.types, i);
    }
  }

  lemma AtNewId(src: seq<Type>, kept: set<Id>, mems: set<(Id, nat)>, picked: seq<Type>, out: seq<Type>, i: Id)
    requires ValidBtf(src) && 0 < i < |src| && i in kept && picked == Picked(src, kept, mems, |src|)
    requires |out| == |picked| && forall j | 0 < j < |out| :: Remapped(picked, out, j, NewIds(kept, |src|))
    ensures GeneratedAt(src, kept, mems, out, i)
  {
    hide Shrunk, Below, Renumber;
    PickedAt(src, kept, mems, |src|, i);
    assert Remapped(picked, out, NewId(kept, i), NewIds(kept, |src|));
    assert Shrunk(src[i], MembersOf(mems, i)).name == src[i].name by { ShrunkName(src[i], MembersOf(mems, i)); }
  }

  lemma ShrunkName(t: Type, keep: set<nat>)
    ensures Shrunk(t, keep).name == t.name
  {
  }

  lemma {:induction false} PickedVoid(src: seq<Type>, kept: set<Id>, mems: set<(Id, nat)>, n: nat)
    requires n <= |src|
    ensures Picked(src, kept, mems, n) != [] && Picked(src, kept, mems, n)[0] == VOID
  {
    if n > 1 {
      PickedVoid(src, kept, mems, n - 1);
    }
  }
}
