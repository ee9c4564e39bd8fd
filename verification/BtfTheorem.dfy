/** The minimised BTF means the same to every recorded relocation: sizes, bit offsets and bitfield
    sizes along its access path are those of the source. */
module BtfTheorem {
  import opened BtfTypes
  import opened BtfMatch
  import opened BtfMark
  import opened BtfOut
  import opened BtfGet

  // out is what btfgen_get_btf made of a source and of marks left by relocations without errors.
  ghost predicate Minimised(src: seq<Type>, kept: set<Id>, mems: set<(Id, nat)>, out: seq<Type>) {
    ValidBtf(src) && Closed(src, kept) && Generable(src, kept, mems, |src|) && Generated(src, kept, mems, out)
  }

  // The indices of a path, with those of members replaced by their rank among the kept ones.
  function NewPath(src: seq<Type>, mems: set<(Id, nat)>, id: Id, path: seq<nat>, fuel: nat): (p: seq<nat>)
    ensures |p| <= |path|
    decreases |path|
  {
    if path == [] then [] else
    var c := Skip(src, id, fuel);
    if c.None? then [] else
    match src[c.value].body
    case Composite(_, _, _, ms) =>
      if path[0] < |ms| then [Rank(MembersOf(mems, c.value), path[0])]
        + NewPath(src, mems, ms[path[0]].typ, path[1..], fuel) else []
    case Array(elem, _, _) => [path[0]] + NewPath(src, mems, elem, path[1..], fuel)
    case _ => []
  }

  predicate Known(kept: set<Id>, id: Id) {
    id == 0 || id in kept
  }

  // --- what becomes of each kind of type

  lemma VoidStays(src: seq<Type>, kept: set<Id>, mems: set<(Id, nat)>, out: seq<Type>)
    requires Minimised(src, kept, mems, out)
    ensures 0 !in kept && NewId(kept, 0) == 0 && 0 < |out| && 0 < |src| && out[0] == src[0] == VOID
  {
  }

  // A type that is not a composite is copied with its ids renumbered.
  lemma Copied(src: seq<Type>, kept: set<Id>, mems: set<(Id, nat)>, out: seq<Type>, i: Id)
    requires Minimised(src, kept, mems, out) && i in kept && !src[i].body.Composite?
    ensures 0 < i < |src| && NewId(kept, i) < |out|
    ensures Below(src[i].body, |src|) && out[NewId(kept, i)].body == Renumber(src[i].body, NewIds(kept, |src|))
  {
    hide Renumber, Below;
    assert GeneratedAt(src, kept, mems, out, i);
  }

  // A composite keeps its kind and size; a kept member stands at its rank with the same name, bit
  // offset and bitfield size, and the last member stays last.
  lemma CompositeKept(src: seq<Type>, kept: set<Id>, mems: set<(Id, nat)>, out: seq<Type>, i: Id)
    requires Minimised(src, kept, mems, out) && i in kept && src[i].body.Composite?
    ensures 0 < i < |src| && NewId(kept, i) < |out|
    ensures var b, b2 := src[i].body, out[NewId(kept, i)].body;
      b2.Composite? && b2.isUnion == b.isUnion && b2.size == b.size && |b2.members| == Rank(MembersOf(mems, i), |b.members|)
  {
    assert GeneratedAt(src, kept, mems, out, i);
  }

  lemma MemberKept(src: seq<Type>, kept: set<Id>, mems: set<(Id, nat)>, out: seq<Type>, i: Id, k: nat)
    requires Minimised(src, kept, mems, out) && i in kept && src[i].body.Composite?
    requires k < |src[i].body.members| && (i, k) in mems
    ensures 0 < i < |src| && NewId(kept, i) < |out| && out[NewId(kept, i)].body.Composite?
    ensures var b, b2, r := src[i].body, out[NewId(kept, i)].body, Rank(MembersOf(mems, i), k);
      r < |b2.members| && (k == |b.members| - 1 ==> r == |b2.members| - 1)
      && b2.members[r].name == b.members[k].name && b.members[k].typ < |src|
      && b2.members[r].typ == NewId(kept, b.members[k].typ)
      && BitOffset(b2.kflag, b2.members[r]) == BitOffset(b.kflag, b.members[k])
      && BitSize(b2.kflag, b2.members[r]) == BitSize(b.kflag, b.members[k])
  {
    hide Filter, Rank, BitOffset, BitSize;
    var b, keep := src[i].body, MembersOf(mems, i);
    assert k in keep;
    CompositeKept(src, kept, mems, out, i);
    assert GeneratedAt(src, kept, mems, out, i);
    assert ValidType(|src|, src[i]);
    assert Rebuildable(b, keep);
    FilterAt(b.kflag, b.members, keep, |b.members|, k);
    LastRank(keep, |b.members|, k);
    BelowIs(b, |src|);
    MemberEncoded(b, keep, k, NewId(kept, b.members[k].typ));
  }

  lemma LastRank(keep: set<nat>, n: nat, k: nat)
    requires k < n && k in keep
    ensures k == n - 1 ==> Rank(keep, n) == Rank(keep, k) + 1
  {
  }

  lemma MemberEncoded(b: Body, keep: set<nat>, k: nat, typ: Id)
    requires b.Composite? && Rebuildable(b, keep) && k < |b.members| && k in keep
      && forall m | m in b.members :: m.offset < TWO32
    ensures var m := b.members[k];
      var e, flag := Encode(m.name, m.typ, BitOffset(b.kflag, m), BitSize(b.kflag, m)).(typ := typ),
        AnyBitfield(b.kflag, b.members, keep, |b.members|);
      BitOffset(flag, e) == BitOffset(b.kflag, m) && BitSize(flag, e) == BitSize(b.kflag, m)
  {
    EncodeExact(b.isUnion, b.kflag, b.members, keep, k);
  }

  // --- sizes and typedefs

  lemma {:induction false} SizeKept(src: seq<Type>, kept: set<Id>, mems: set<(Id, nat)>, out: seq<Type>, id: Id,
    ptrSz: nat, depth: nat, n: nat)
    requires Minimised(src, kept, mems, out) && Known(kept, id)
    ensures SizeFrom(out, NewId(kept, id), ptrSz, depth, n) == SizeFrom(src, id, ptrSz, depth, n)
    decreases depth
  {
    hide Generated, Generable, ValidBtf, NewId;
    VoidStays(src, kept, mems, out);
    if depth > 0 && id != 0 {
      var b := src[id].body;
      assert Keepable(b) && forall x | x in Targets(b, false) :: Known(kept, x);
      if b.Composite? {
        CompositeKept(src, kept, mems, out, id);
      } else {
        Copied(src, kept, mems, out, id);
        match b
        case Mod(_, to) => SizeKept(src, kept, mems, out, to, ptrSz, depth - 1, n);
        case Typedef(to) => SizeKept(src, kept, mems, out, to, ptrSz, depth - 1, n);
        case Array(elem, _, k) => SizeKept(src, kept, mems, out, elem, ptrSz, depth - 1, n * k);
        case _ =>
      }
    }
  }

  lemma SkippedSame(b: Body, ids: seq<Id>)
    requires Below(b, |ids|)
    ensures Skipped(Renumber(b, ids)) == Skipped(b)
  {
  }

  lemma {:induction false} SkipKept(src: seq<Type>, kept: set<Id>, mems: set<(Id, nat)>, out: seq<Type>, id: Id, fuel: nat)
    requires Minimised(src, kept, mems, out) && Known(kept, id)
    ensures var c := Skip(src, id, fuel);
      Skip(out, NewId(kept, id), fuel) == (if c.Some? then Some(NewId(kept, c.value)) else None)
      && (c.Some? ==> Known(kept, c.value))
    decreases fuel
  {
    hide Generated, Generable, ValidBtf, NewId;
    VoidStays(src, kept, mems, out);
    if id != 0 {
      var b := src[id].body;
      assert Keepable(b) && forall x | x in Targets(b, false) :: Known(kept, x);
      if b.Composite? {
        CompositeKept(src, kept, mems, out, id);
      } else {
        Copied(src, kept, mems, out, id);
        var b2 := out[NewId(kept, id)].body;
        assert Skipped(b2) == Skipped(b) by { SkippedSame(b, NewIds(kept, |src|)); }
        if Skipped(b) && fuel > 0 {
          assert b.to in Targets(b, false) && b2.to == NewId(kept, b.to);
          SkipKept(src, kept, mems, out, b.to, fuel - 1);
          assert Skip(src, id, fuel) == Skip(src, b.to, fuel - 1);
          assert Skip(out, NewId(kept, id), fuel) == Skip(out, b2.to, fuel - 1);
        }
      }
    }
  }

  // --- access paths

  // A recorded path that the source resolves, the output resolves to the same steps.
  lemma {:induction false} WalkKept(src: seq<Type>, kept: set<Id>, mems: set<(Id, nat)>, out: seq<Type>,
                                    id: Id, path: seq<nat>, ptrSz: nat, fuel: nat, flex: bool, flex2: bool)
    requires Minimised(src, kept, mems, out) && Known(kept, id) && Recorded(src, id, path, kept, mems, fuel)
    requires Walk(src, id, path, ptrSz, fuel, flex).Some? && (flex ==> flex2)
    ensures Walk(out, NewId(kept, id), NewPath(src, mems, id, path, fuel), ptrSz, fuel, flex2)
      == Walk(src, id, path, ptrSz, fuel, flex)
    decreases |path|
  {
    hide Minimised, NewId, Rank, MembersOf, SizeFrom, BitOffset, BitSize;
    if path != [] {
      SkipKept(src, kept, mems, out, id, fuel);
      var c := Skip(src, id, fuel).value;
      VoidStays(src, kept, mems, out);
      match src[c].body
      case Composite(_, _, kflag, ms) =>
        var k := path[0];
        var m := ms[k];
        MemberKept(src, kept, mems, out, c, k);
        SizeKept(src, kept, mems, out, m.typ, ptrSz, MAX_RESOLVE_DEPTH, 1);
        var b2, r := out[NewId(kept, c)].body, Rank(MembersOf(mems, c), k);
        var f := if m.name == Str("") then flex else k == |ms| - 1;
        var f2 := if m.name == Str("") then flex2 else r == |b2.members| - 1;
        WalkKept(src, kept, mems, out, m.typ, path[1..], ptrSz, fuel, f, f2);
        assert NewPath(src, mems, id, path, fuel)[1..] == NewPath(src, mems, m.typ, path[1..], fuel);
      case Array(elem, _, n) =>
        ArrayStep(src, kept, mems, out, c, path[1..], fuel);
        var e := Skip(src, elem, fuel).value;
        SizeKept(src, kept, mems, out, e, ptrSz, MAX_RESOLVE_DEPTH, 1);
        WalkKept(src, kept, mems, out, e, path[1..], ptrSz, fuel, false, false);
        assert NewPath(src, mems, id, path, fuel)[1..] == NewPath(src, mems, elem, path[1..], fuel);
    }
  }

  // From an array to its element, past typedefs.
  lemma ArrayStep(src: seq<Type>, kept: set<Id>, mems: set<(Id, nat)>, out: seq<Type>, c: Id, rest: seq<nat>, fuel: nat)
    requires Minimised(src, kept, mems, out) && c in kept && c < |src| && src[c].body.Array?
      && Skip(src, src[c].body.elem, fuel).Some?
    requires Recorded(src, src[c].body.elem, rest, kept, mems, fuel)
    ensures var b, e := src[c].body, Skip(src, src[c].body.elem, fuel).value;
      b.index < |src| && b.elem < |src| && NewId(kept, c) < |out|
      && out[NewId(kept, c)].body == Array(NewId(kept, b.elem), NewId(kept, b.index), b.nelems)
      && Known(kept, e) && Skip(out, NewId(kept, b.elem), fuel) == Some(NewId(kept, e))
      && Recorded(src, e, rest, kept, mems, fuel)
      && NewPath(src, mems, e, rest, fuel) == NewPath(src, mems, b.elem, rest, fuel)
  {
    hide NewId, Generated;
    Copied(src, kept, mems, out, c);
    var b := src[c].body;
    assert b.elem in Targets(b, false);
    SkipKept(src, kept, mems, out, b.elem, fuel);
    SkipTwice(src, b.elem, fuel);
  }

  lemma {:induction false} SkipTwice(ts: seq<Type>, id: Id, fuel: nat)
    requires Skip(ts, id, fuel).Some?
    ensures Skip(ts, Skip(ts, id, fuel).value, fuel) == Skip(ts, id, fuel)
    decreases fuel
  {
  }

  // The path of a relocation in the output.
  function NewRaw(src: seq<Type>, mems: set<(Id, nat)>, root: Id, raw: seq<nat>, fuel: nat): seq<nat> {
    if raw == [] then [] else [raw[0]] + NewPath(src, mems, root, raw[1..], fuel)
  }

  // Every field relocation that was recorded and that the source resolves, the output resolves to
  // the same place: same bit offset, same members and elements, same sizes at every step.
  lemma AccessKept(src: seq<Type>, kept: set<Id>, mems: set<(Id, nat)>, out: seq<Type>, r: Reloc, ptrSz: nat, fuel: nat)
    requires Minimised(src, kept, mems, out) && r.FieldReloc? && Served(src, r, kept, mems, fuel)
    requires Access(src, r.root, r.raw, ptrSz, fuel).Some?
    ensures Access(out, NewId(kept, r.root), NewRaw(src, mems, r.root, r.raw, fuel), ptrSz, fuel)
      == Access(src, r.root, r.raw, ptrSz, fuel)
  {
    hide Minimised, NewId, Walk, Recorded, SizeFrom;
    var c := Skip(src, r.root, fuel).value;
    SkipKept(src, kept, mems, out, r.root, fuel);
    FromSkipped(src, r.root, r.raw[1..], kept, mems, fuel);
    SizeKept(src, kept, mems, out, c, ptrSz, MAX_RESOLVE_DEPTH, 1);
    WalkKept(src, kept, mems, out, c, r.raw[1..], ptrSz, fuel, false, false);
    assert NewRaw(src, mems, r.root, r.raw, fuel)[1..] == NewPath(src, mems, r.root, r.raw[1..], fuel);
  }

  lemma FromSkipped(src: seq<Type>, id: Id, path: seq<nat>, kept: set<Id>, mems: set<(Id, nat)>, fuel: nat)
    requires Skip(src, id, fuel).Some? && Recorded(src, id, path, kept, mems, fuel)
    ensures var e := Skip(src, id, fuel).value;
      Recorded(src, e, path, kept, mems, fuel) && NewPath(src, mems, e, path, fuel) == NewPath(src, mems, id, path, fuel)
  {
    SkipTwice(src, id, fuel);
  }

  // A relocation against a type finds a type of the same size.
  lemma TypeSizeKept(src: seq<Type>, kept: set<Id>, mems: set<(Id, nat)>, out: seq<Type>, r: Reloc, ptrSz: nat, fuel: nat)
    requires Minimised(src, kept, mems, out) && (r.TypeReloc? || r.EnumvalReloc?) && Served(src, r, kept, mems, fuel)
    ensures Size(out, NewId(kept, r.root), ptrSz) == Size(src, r.root, ptrSz)
  {
    hide Minimised;
    SizeKept(src, kept, mems, out, r.root, ptrSz, MAX_RESOLVE_DEPTH, 1);
  }
}
