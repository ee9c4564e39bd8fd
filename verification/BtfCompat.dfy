/** Compatible types, as the relocation engine decides about them, and enumerators: a recorded type or
    enumerator relocation finds in the output what it finds in the source. */
module BtfCompat {
  import opened BtfTypes
  import opened BtfMatch
  import opened BtfMark
  import opened BtfOut
  import opened BtfGet
  import opened BtfTheorem

  // --- __bpf_core_types_are_compat: positive, zero or an error

  // btf_kind_core_compat: the same kind, or enums of both sorts
  predicate KindsCompat(b: Body, c: Body) {
    match b
    case Void => c.Void?
    case Plain(k, _) =>
      c.Plain? && ((k.Int? && c.kind.Int?) || (k.Float? && c.kind.Float?) || (k.Enum? && c.kind.Enum?))
    case Ptr(_) => c.Ptr?
    case Mod(m, _) => c.Mod? && c.mod == m
    case Typedef(_) => c.Typedef?
    case Array(_, _, _) => c.Array?
    case Composite(u, _, _, _) => c.Composite? && c.isUnion == u
    case FuncProto(_, _) => c.FuncProto?
    case Fwd(_) => c.Fwd?
    case Other(k, _) => c.Other? && c.other == k
  }

  function TypesCompat(l: seq<Type>, lid: Id, t: seq<Type>, tid: Id, level: nat, fuel: nat): int
    requires lid < |l| && tid < |t|
    decreases level, MATCH_DEPTH + 3, 0
  {
    if !KindsCompat(l[lid].body, t[tid].body) then 0 else CompatFrom(l, lid, t, tid, level, MATCH_DEPTH, fuel)
  }

  // Depth more rounds of the loop.
  function CompatFrom(l: seq<Type>, lid: Id, t: seq<Type>, tid: Id, level: nat, depth: nat, fuel: nat): int
    requires depth <= MATCH_DEPTH
    decreases level, depth + 2, 0
  {
    var lc, tc := Skip(l, lid, fuel), Skip(t, tid, fuel);
    if depth == 0 || lc.None? || tc.None? then -EINVAL else
    var b, c := l[lc.value].body, t[tc.value].body;
    if !KindsCompat(b, c) then 0 else
    match b
    case Plain(Int(_, offset, _), _) => Yes(offset == 0 && c.kind.offset == 0)
    case Plain(Float, _) => 0
    case Ptr(to) => CompatFrom(l, to, t, c.to, level, depth - 1, fuel)
    case Array(elem, _, _) => CompatFrom(l, elem, t, c.elem, level, depth - 1, fuel)
    case FuncProto(ret, ps) =>
      if |ps| != |c.params| then 0 else
      var r := ParamsCompat(l, ps, t, c.params, level, fuel);
      if r <= 0 then r else CompatAgain(l, ret, t, c.ret, level, depth, fuel)
    case Mod(_, _) => 0
    case Typedef(_) => 0
    case Other(_, _) => 0
    case _ => 1
  }

  // The return type, past modifiers and typedefs.
  function CompatAgain(l: seq<Type>, lid: Id, t: seq<Type>, tid: Id, level: nat, depth: nat, fuel: nat): int
    requires 0 < depth <= MATCH_DEPTH
    decreases level, depth + 1, 1
  {
    var lc, tc := Skip(l, lid, fuel), Skip(t, tid, fuel);
    if lc.None? || tc.None? then -EINVAL else CompatFrom(l, lc.value, t, tc.value, level, depth - 1, fuel)
  }

  function ParamsCompat(l: seq<Type>, ps: seq<Param>, t: seq<Type>, qs: seq<Param>, level: nat, fuel: nat): int
    requires |ps| == |qs|
    decreases level, 1, |ps|
  {
    if ps == [] then 1 else
    if level == 0 then -EINVAL else
    var lc, tc := Skip(l, ps[0].typ, fuel), Skip(t, qs[0].typ, fuel);
    if lc.None? || tc.None? then -EINVAL else
    var r := TypesCompat(l, lc.value, t, tc.value, level - 1, fuel);
    if r <= 0 then r else ParamsCompat(l, ps[1..], t, qs[1..], level, fuel)
  }

  // --- what is linked to the root

  // A local BTF, and a source that was minimised with everything marked that root leads to.
  datatype Setting = Setting(l: seq<Type>, src: seq<Type>, kept: set<Id>, mems: set<(Id, nat)>, out: seq<Type>,
                             root: Id, fuel: nat)

  ghost predicate Ready(e: Setting) {
    Minimised(e.src, e.kept, e.mems, e.out) && LinkedIds(e.src, e.root, true) <= e.kept
  }

  ghost predicate At(e: Setting, id: Id) {
    id < |e.src| && (id == 0 || Linked(e.src, e.root, id, true))
  }

  lemma AtKnown(e: Setting, id: Id)
    requires Ready(e) && At(e, id)
    ensures Known(e.kept, id) && id < |e.src| && (e.src[id].body != Void ==> id != 0)
  {
    hide Linked, Generated, Generable, Closed;
    if id != 0 {
      assert id in LinkedIds(e.src, e.root, true);
    }
  }

  lemma AtNext(e: Setting, id: Id, x: Id)
    requires Ready(e) && At(e, id) && 0 < id && x in Targets(e.src[id].body, true)
    ensures At(e, x)
  {
    hide Linked, Generated, Generable, Closed, Targets, Refs;
    assert ValidType(|e.src|, e.src[id]);
    TargetIsRef(e.src[id].body, x);
    if x != 0 {
      LinkedOn(e.src, e.root, id, x);
    }
  }

  lemma {:induction false} AtSkipped(e: Setting, id: Id, fuel: nat)
    requires Ready(e) && At(e, id) && Skip(e.src, id, fuel).Some?
    ensures At(e, Skip(e.src, id, fuel).value)
    decreases fuel
  {
    hide Ready, At;
    AtKnown(e, id);
    if Skipped(e.src[id].body) {
      AtNext(e, id, e.src[id].body.to);
      AtSkipped(e, e.src[id].body.to, fuel - 1);
    }
  }

  // A reference and its copy.
  ghost predicate Goes(e: Setting, x: Id, x2: Id) {
    At(e, x) && x2 == NewId(e.kept, x)
  }

  ghost predicate SameParams(e: Setting, ps: seq<Param>, ps2: seq<Param>) {
    |ps| == |ps2| && forall k | 0 <= k < |ps| :: Goes(e, ps[k].typ, ps2[k].typ)
  }

  // A body and its copy: of the same kind, with references to copies.
  ghost predicate LooksSame(e: Setting, b: Body, b2: Body) {
    (forall c: Body :: KindsCompat(c, b2) == KindsCompat(c, b)) && (b.Plain? ==> b2 == b)
    && (b.Ptr? ==> b2.Ptr? && Goes(e, b.to, b2.to)) && (b.Array? ==> b2.Array? && Goes(e, b.elem, b2.elem))
    && (b.FuncProto? ==> b2.FuncProto? && SameParams(e, b.params, b2.params) && Goes(e, b.ret, b2.ret))
  }

  lemma Looks(e: Setting, id: Id)
    requires Ready(e) && At(e, id)
    ensures NewId(e.kept, id) < |e.out| && id < |e.src| && LooksSame(e, e.src[id].body, e.out[NewId(e.kept, id)].body)
  {
    hide At, Generated, Generable, Closed, ValidBtf, LinkedIds, SameParams, NewId;
    AtKnown(e, id);
    var b := e.src[id].body;
    VoidStays(e.src, e.kept, e.mems, e.out);
    if id != 0 {
      if b.Composite? {
        CompositeKept(e.src, e.kept, e.mems, e.out, id);
      } else {
        Copied(e.src, e.kept, e.mems, e.out, id);
        match b
        case FuncProto(_, _) => ProtoLooks(e, id);
        case Ptr(to) => AtNext(e, id, to);
        case Array(elem, _, _) => AtNext(e, id, elem);
        case _ =>
      }
    }
  }

  lemma ProtoLooks(e: Setting, id: Id)
    requires Ready(e) && At(e, id) && 0 < id < |e.src| && e.src[id].body.FuncProto? && Below(e.src[id].body, |e.src|)
    ensures var b, b2 := e.src[id].body, Renumber(e.src[id].body, NewIds(e.kept, |e.src|));
      SameParams(e, b.params, b2.params) && Goes(e, b.ret, b2.ret)
  {
    hide At, Ready, NewId;
    var b := e.src[id].body;
    AtNext(e, id, b.ret);
    forall k | 0 <= k < |b.params| ensures At(e, b.params[k].typ) {
      assert ParamIds(b.params)[k] in ParamIds(b.params);
      AtNext(e, id, b.params[k].typ);
    }
  }

  lemma Skips(e: Setting, id: Id)
    requires Ready(e) && At(e, id)
    ensures var c, c2 := Skip(e.src, id, e.fuel), Skip(e.out, NewId(e.kept, id), e.fuel);
      (c.None? <==> c2.None?) && (c.Some? ==> At(e, c.value) && c2.value == NewId(e.kept, c.value))
  {
    hide At, Minimised;
    AtKnown(e, id);
    SkipKept(e.src, e.kept, e.mems, e.out, id, e.fuel);
    if Skip(e.src, id, e.fuel).Some? {
      AtSkipped(e, id, e.fuel);
    }
  }

  // --- the comparison

  lemma {:induction false} CompatKept(e: Setting, lid: Id, id: Id, level: nat)
    requires Ready(e) && At(e, id) && lid < |e.l|
    ensures NewId(e.kept, id) < |e.out| && id < |e.src|
      && TypesCompat(e.l, lid, e.out, NewId(e.kept, id), level, e.fuel) == TypesCompat(e.l, lid, e.src, id, level, e.fuel)
    decreases level, MATCH_DEPTH + 3, 0
  {
    hide Ready, At, NewId, Skip, KindsCompat;
    Looks(e, id);
    RoundsKept(e, lid, id, level, MATCH_DEPTH);
  }

  lemma {:induction false} RoundsKept(e: Setting, lid: Id, id: Id, level: nat, depth: nat)
    requires Ready(e) && At(e, id) && depth <= MATCH_DEPTH
    ensures CompatFrom(e.l, lid, e.out, NewId(e.kept, id), level, depth, e.fuel)
      == CompatFrom(e.l, lid, e.src, id, level, depth, e.fuel)
    decreases level, depth + 2, 0
  {
    hide Ready, At, NewId, Skip, SameParams;
    Skips(e, id);
    var lc, c := Skip(e.l, lid, e.fuel), Skip(e.src, id, e.fuel);
    if depth > 0 && lc.Some? && c.Some? {
      Looks(e, c.value);
      var b, b2 := e.src[c.value].body, e.out[NewId(e.kept, c.value)].body;
      match e.l[lc.value].body
      case Ptr(to) => if b.Ptr? { RoundsKept(e, to, b.to, level, depth - 1); }
      case Array(elem, _, _) => if b.Array? { RoundsKept(e, elem, b.elem, level, depth - 1); }
      case FuncProto(ret, ps) =>
        if b.FuncProto? {
          SameCount(e, b.params, b2.params);
          if |ps| == |b.params| {
            ParamsKept(e, ps, b.params, b2.params, level);
            AgainKept(e, ret, b.ret, level, depth);
          }
        }
      case _ =>
    }
  }

  lemma {:induction false} AgainKept(e: Setting, lid: Id, id: Id, level: nat, depth: nat)
    requires Ready(e) && At(e, id) && 0 < depth <= MATCH_DEPTH
    ensures CompatAgain(e.l, lid, e.out, NewId(e.kept, id), level, depth, e.fuel)
      == CompatAgain(e.l, lid, e.src, id, level, depth, e.fuel)
    decreases level, depth + 1, 1
  {
    hide Ready, At, NewId, Skip, CompatFrom;
    Skips(e, id);
    var lc, c := Skip(e.l, lid, e.fuel), Skip(e.src, id, e.fuel);
    if lc.Some? && c.Some? {
      RoundsKept(e, lc.value, c.value, level, depth - 1);
    }
  }

  lemma SameCount(e: Setting, ps: seq<Param>, ps2: seq<Param>)
    requires SameParams(e, ps, ps2)
    ensures |ps| == |ps2|
  {
  }

  lemma {:induction false} ParamsKept(e: Setting, ps: seq<Param>, qs: seq<Param>, qs2: seq<Param>, level: nat)
    requires Ready(e) && SameParams(e, qs, qs2) && |ps| == |qs| == |qs2|
    ensures ParamsCompat(e.l, ps, e.out, qs2, level, e.fuel) == ParamsCompat(e.l, ps, e.src, qs, level, e.fuel)
    decreases level, 1, |ps|
  {
    hide Ready, At, NewId, TypesCompat, Skip;
    if ps != [] && level > 0 {
      assert Goes(e, qs[0].typ, qs2[0].typ);
      Skips(e, qs[0].typ);
      var lc, c := Skip(e.l, ps[0].typ, e.fuel), Skip(e.src, qs[0].typ, e.fuel);
      if lc.Some? && c.Some? {
        CompatKept(e, lc.value, c.value, level - 1);
      }
      forall k | 0 <= k < |qs[1..]| ensures Goes(e, qs[1..][k].typ, qs2[1..][k].typ) {
        assert Goes(e, qs[k + 1].typ, qs2[k + 1].typ);
      }
      ParamsKept(e, ps[1..], qs[1..], qs2[1..], level);
    }
  }

  // A type that a type relocation recorded is compatible with a local type exactly if it is in the source.
  lemma TypeKept(l: seq<Type>, lid: Id, src: seq<Type>, kept: set<Id>, mems: set<(Id, nat)>, out: seq<Type>, r: Reloc,
    fuel: nat)
    requires Minimised(src, kept, mems, out) && r.TypeReloc? && r.root < |src| && Served(src, r, kept, mems, fuel)
    requires lid < |l|
    ensures NewId(kept, r.root) < |out|
      && TypesCompat(l, lid, out, NewId(kept, r.root), MATCH_DEPTH, fuel)
         == TypesCompat(l, lid, src, r.root, MATCH_DEPTH, fuel)
  {
    hide Minimised, TypesCompat, LinkedIds, Linked, Group;
    var ids :| Group(src, ids) && (r.root == 0 || r.root in ids) && ids <= kept;
    LinkedInGroup(src, ids, r.root);
    if r.root != 0 {
      LinkedSelf(src, r.root, true);
    }
    CompatKept(Setting(l, src, kept, mems, out, r.root, fuel), lid, r.root, MATCH_DEPTH);
  }

  // An enumerator relocation finds the same enum, with the same names and values.
  lemma EnumKept(src: seq<Type>, kept: set<Id>, mems: set<(Id, nat)>, out: seq<Type>, r: Reloc, fuel: nat)
    requires Minimised(src, kept, mems, out) && r.EnumvalReloc? && Served(src, r, kept, mems, fuel)
    ensures var c, c2 := Skip(src, r.root, fuel), Skip(out, NewId(kept, r.root), fuel);
      (c.None? <==> c2.None?)
      && (c.Some? ==>
            (src[c.value].body.Plain? <==> out[c2.value].body.Plain?)
            && (src[c.value].body.Plain? ==> out[c2.value] == src[c.value]))
  {
    hide Minimised, Skip;
    SkipKept(src, kept, mems, out, r.root, fuel);
    var c := Skip(src, r.root, fuel);
    if c.Some? {
      PlainKept(src, kept, mems, out, c.value);
    }
  }

  lemma PlainKept(src: seq<Type>, kept: set<Id>, mems: set<(Id, nat)>, out: seq<Type>, id: Id)
    requires Minimised(src, kept, mems, out) && Known(kept, id) && id < |src|
    ensures NewId(kept, id) < |out| && (src[id].body.Plain? <==> out[NewId(kept, id)].body.Plain?)
    ensures src[id].body.Plain? ==> out[NewId(kept, id)] == src[id]
  {
    hide Generated, Generable, Closed, ValidBtf;
    VoidStays(src, kept, mems, out);
    if id != 0 {
      if src[id].body.Composite? {
        CompositeKept(src, kept, mems, out, id);
      } else {
        Copied(src, kept, mems, out, id);
        SameName(src, kept, mems, out, id);
      }
    }
  }

  lemma SameName(src: seq<Type>, kept: set<Id>, mems: set<(Id, nat)>, out: seq<Type>, id: Id)
    requires Minimised(src, kept, mems, out) && id in kept
    ensures 0 < id < |src| && NewId(kept, id) < |out| && out[NewId(kept, id)].name == src[id].name
  {
    hide Below, Renumber, Shrunk;
    assert GeneratedAt(src, kept, mems, out, id);
  }
}
