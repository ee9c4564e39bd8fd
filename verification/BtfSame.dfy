/** Relations between types survive minimisation: a recorded match relocation finds a type that matches
    exactly as the source's does, and a recorded type relocation one that is as compatible. */
module BtfSame {
  import opened BtfTypes
  import opened BtfMatch
  import opened BtfMark
  import opened BtfOut
  import opened BtfGet
  import opened BtfTheorem

  // A local BTF, and a source that was minimised with everything marked for a match with root.
  datatype Setting = Setting(l: seq<Type>, src: seq<Type>, kept: set<Id>, mems: set<(Id, nat)>, out: seq<Type>,
                             root: Id, fuel: nat)

  ghost predicate Ready(e: Setting) {
    Minimised(e.src, e.kept, e.mems, e.out) && MatchIds(e.src, e.root) <= e.kept && MatchMems(e.src, e.root) <= e.mems
  }

  // The marking has been here; with behind, perhaps only behind a pointer.
  ghost predicate At(e: Setting, id: Id, behind: bool) {
    id < |e.src|
    && (id == 0 || Comes(e.src, Node(e.root, false), Node(id, false))
        || (behind && Comes(e.src, Node(e.root, false), Node(id, true))))
  }

  lemma AtKnown(e: Setting, id: Id, behind: bool)
    requires Ready(e) && At(e, id, behind)
    ensures Known(e.kept, id)
  {
    hide Minimised, Comes;
    if Comes(e.src, Node(e.root, false), Node(id, false)) {
      assert id in MatchIds(e.src, e.root);
    } else if id != 0 {
      assert Comes(e.src, Node(e.root, false), Node(id, true)) && id in MatchIds(e.src, e.root);
    }
  }

  // One reference on, however the marking came here.
  lemma AtNext(e: Setting, id: Id, behind: bool, to: Id, behind2: bool)
    requires At(e, id, behind) && 0 < id && to < |e.src|
    requires GoesTo(e.src[id].body, false, to, behind2) && (behind ==> GoesTo(e.src[id].body, true, to, behind2))
    ensures At(e, to, behind2)
  {
    hide Comes, Onward;
    var r := Node(e.root, false);
    if to != 0 {
      forall b | b ==> behind ensures Comes(e.src, r, Node(id, b)) ==> At(e, to, behind2) {
        if Comes(e.src, r, Node(id, b)) {
          assert GoesTo(e.src[id].body, b, to, behind2);
          if Node(to, false) in Onward(e.src[id].body, b) {
            ComesOn(e.src, r, Node(id, b), Node(to, false));
          } else {
            ComesOn(e.src, r, Node(id, b), Node(to, true));
          }
        }
      }
    }
  }

  ghost predicate GoesTo(b: Body, behind: bool, to: Id, behind2: bool) {
    Node(to, false) in Onward(b, behind) || (behind2 && Node(to, true) in Onward(b, behind))
  }

  lemma RefBelow(e: Setting, id: Id, x: Id)
    requires Ready(e) && id < |e.src| && x in Refs(e.src[id].body)
    ensures x < |e.src|
  {
    assert id == 0 || ValidType(|e.src|, e.src[id]);
  }

  lemma {:induction false} AtSkipped(e: Setting, id: Id, behind: bool, fuel: nat)
    requires Ready(e) && At(e, id, behind) && Skip(e.src, id, fuel).Some?
    ensures At(e, Skip(e.src, id, fuel).value, behind)
    decreases fuel
  {
    hide Ready, At;
    if Skipped(e.src[id].body) {
      var to := e.src[id].body.to;
      NotVoid(e, id);
      RefBelow(e, id, to);
      assert GoesTo(e.src[id].body, false, to, behind);
      assert behind ==> GoesTo(e.src[id].body, true, to, behind);
      AtNext(e, id, behind, to, behind);
      AtSkipped(e, to, behind, fuel - 1);
    }
  }

  lemma NotVoid(e: Setting, id: Id)
    requires Ready(e) && id < |e.src| && e.src[id].body != Void
    ensures id != 0
  {
  }

  // A type and its copy, past modifiers and typedefs.
  lemma Skips(e: Setting, id: Id, behind: bool)
    requires Ready(e) && At(e, id, behind)
    ensures var c, c2 := Skip(e.src, id, e.fuel), Skip(e.out, NewId(e.kept, id), e.fuel);
      (c.None? <==> c2.None?)
      && (c.Some? ==>
            At(e, c.value, behind) && c2.value == NewId(e.kept, c.value) && c2.value < |e.out|
            && e.out[c2.value].name == e.src[c.value].name)
  {
    hide At, Minimised;
    AtKnown(e, id, behind);
    SkipKept(e.src, e.kept, e.mems, e.out, id, e.fuel);
    var c := Skip(e.src, id, e.fuel);
    if c.Some? {
      AtSkipped(e, id, behind, e.fuel);
      NameKept(e, c.value);
    }
  }

  lemma NameKept(e: Setting, id: Id)
    requires Minimised(e.src, e.kept, e.mems, e.out) && Known(e.kept, id) && id < |e.src|
    ensures NewId(e.kept, id) < |e.out| && e.out[NewId(e.kept, id)].name == e.src[id].name
  {
    if id == 0 {
      VoidStays(e.src, e.kept, e.mems, e.out);
    } else {
      assert GeneratedAt(e.src, e.kept, e.mems, e.out, id);
    }
  }

  // --- members

  lemma {:induction false} RankAll(keep: set<nat>, n: nat)
    requires forall k: nat | k < n :: k in keep
    ensures Rank(keep, n) == n
  {
    if n > 0 {
      RankAll(keep, n - 1);
    }
  }

  // A list of members and its copy.
  ghost predicate SameMembers(e: Setting, ns: seq<Member>, ns2: seq<Member>) {
    |ns| == |ns2| && forall k | 0 <= k < |ns| :: SameMember(e, ns[k], ns2[k])
  }

  ghost predicate SameMember(e: Setting, n: Member, n2: Member) {
    At(e, n.typ, false) && n2.name == n.name && n2.typ == NewId(e.kept, n.typ)
  }

  // A composite that the marking went into is copied with all its members.
  lemma AllMembers(e: Setting, id: Id)
    requires Ready(e) && At(e, id, false) && e.src[id].body.Composite?
    ensures NewId(e.kept, id) < |e.out| && e.out[NewId(e.kept, id)].body.Composite?
    ensures SameMembers(e, e.src[id].body.members, e.out[NewId(e.kept, id)].body.members)
  {
    hide Comes, SameMember;
    var b := e.src[id].body;
    var keep, n := MembersOf(e.mems, id), |b.members|;
    NotVoid(e, id);
    AtKnown(e, id, false);
    CompositeKept(e.src, e.kept, e.mems, e.out, id);
    forall k: nat | k < n ensures k in keep {
      assert (id, k) in MatchMems(e.src, e.root);
      assert (id, k) in e.mems;
    }
    RankAll(keep, n);
    forall k | 0 <= k < n ensures SameMember(e, b.members[k], e.out[NewId(e.kept, id)].body.members[k]) {
      OneMember(e, id, k);
    }
  }

  lemma OneMember(e: Setting, id: Id, k: nat)
    requires Ready(e) && At(e, id, false) && id in e.kept && e.src[id].body.Composite?
    requires forall j: nat | j < |e.src[id].body.members| :: j in MembersOf(e.mems, id)
    requires k < |e.src[id].body.members|
    ensures NewId(e.kept, id) < |e.out| && e.out[NewId(e.kept, id)].body.Composite?
      && k < |e.out[NewId(e.kept, id)].body.members|
      && SameMember(e, e.src[id].body.members[k], e.out[NewId(e.kept, id)].body.members[k])
  {
    hide At, MatchIds, MatchMems;
    var ms := e.src[id].body.members;
    assert k in MembersOf(e.mems, id);
    assert (id, k) in e.mems;
    MemberKept(e.src, e.kept, e.mems, e.out, id, k);
    RankAll(MembersOf(e.mems, id), k);
    NotVoid(e, id);
    assert MemberNodes(ms)[k] == Node(ms[k].typ, false);
    assert GoesTo(e.src[id].body, false, ms[k].typ, false);
    AtNext(e, id, false, ms[k].typ, false);
  }

  // --- one round of the match

  // What a match sees of a type's body: that of its copy looks the same.
  ghost predicate LooksSame(e: Setting, b: Body, b2: Body, behind: bool) {
    if b.Composite? then
      b2.Composite? && b2.isUnion == b.isUnion && (!behind ==> SameMembers(e, b.members, b2.members))
    else if b.FuncProto? then
      b2.FuncProto? && SameParams(e, b.params, b2.params, behind) && Goes(e, b.ret, b2.ret, behind)
    else if b.Ptr? then b2.Ptr? && Goes(e, b.to, b2.to, true)
    else if b.Array? then b2.Array? && b2.nelems == b.nelems && Goes(e, b.elem, b2.elem, behind)
    else !b2.Composite? && !b2.FuncProto? && !b2.Ptr? && !b2.Array? && SameLeaf(b, b2)
  }

  predicate SameLeaf(b: Body, b2: Body) {
    (b.Void? || b.Plain? || b.Fwd? ==> b2 == b) && (b2.Void? || b2.Plain? || b2.Fwd? ==> b2 == b)
  }

  ghost predicate Goes(e: Setting, x: Id, x2: Id, behind: bool) {
    At(e, x, behind) && x2 == NewId(e.kept, x)
  }

  ghost predicate SameParams(e: Setting, ps: seq<Param>, ps2: seq<Param>, behind: bool) {
    |ps| == |ps2| && forall k | 0 <= k < |ps| :: Goes(e, ps[k].typ, ps2[k].typ, behind)
  }

  lemma Looks(e: Setting, id: Id, behind: bool)
    requires Ready(e) && At(e, id, behind)
    ensures NewId(e.kept, id) < |e.out| && LooksSame(e, e.src[id].body, e.out[NewId(e.kept, id)].body, behind)
  {
    hide Ready, At, Minimised, SameMembers, SameParams, Goes, NewId;
    AtBelow(e, id, behind);
    var b := e.src[id].body;
    AtKnown(e, id, behind);
    if id == 0 {
      VoidIs(e);
    } else if b.Composite? {
      CompositeLooks(e, id, behind);
    } else {
      Copy(e, id);
      match b
      case FuncProto(ret, ps) => ProtoLooks(e, id, behind);
      case Ptr(to) => Onto(e, id, behind, to, true);
      case Array(elem, _, _) => Onto(e, id, behind, elem, behind);
      case _ =>
    }
  }

  lemma VoidIs(e: Setting)
    requires Ready(e)
    ensures NewId(e.kept, 0) == 0 < |e.out| && 0 < |e.src| && e.src[0].body == e.out[0].body == Void
  {
    VoidStays(e.src, e.kept, e.mems, e.out);
  }

  lemma CompositeLooks(e: Setting, id: Id, behind: bool)
    requires Ready(e) && At(e, id, behind) && e.src[id].body.Composite?
    ensures NewId(e.kept, id) < |e.out| && LooksSame(e, e.src[id].body, e.out[NewId(e.kept, id)].body, behind)
  {
    hide At, SameMembers;
    AtKnown(e, id, behind);
    NotVoid(e, id);
    CompositeKept(e.src, e.kept, e.mems, e.out, id);
    if !behind {
      AllMembers(e, id);
    }
  }

  lemma Copy(e: Setting, id: Id)
    requires Ready(e) && id in e.kept && id < |e.src| && !e.src[id].body.Composite?
    ensures Below(e.src[id].body, |e.src|) && NewId(e.kept, id) < |e.out|
      && e.out[NewId(e.kept, id)].body == Renumber(e.src[id].body, NewIds(e.kept, |e.src|))
  {
    Copied(e.src, e.kept, e.mems, e.out, id);
  }

  // Where a reference leads, and its copy.
  lemma Onto(e: Setting, id: Id, behind: bool, to: Id, behind2: bool)
    requires Ready(e) && At(e, id, behind) && 0 < id && to in Refs(e.src[id].body)
    requires GoesTo(e.src[id].body, false, to, behind2) && (behind ==> GoesTo(e.src[id].body, true, to, behind2))
    ensures to < |e.src| && Goes(e, to, NewIds(e.kept, |e.src|)[to], behind2)
  {
    hide At, Ready, GoesTo;
    assert id < |e.src| by { AtBelow(e, id, behind); }
    RefBelow(e, id, to);
    AtNext(e, id, behind, to, behind2);
  }

  lemma AtBelow(e: Setting, id: Id, behind: bool)
    requires At(e, id, behind)
    ensures id < |e.src|
  {
  }

  lemma ProtoLooks(e: Setting, id: Id, behind: bool)
    requires Ready(e) && At(e, id, behind) && id in e.kept && 0 < id && e.src[id].body.FuncProto?
    ensures NewId(e.kept, id) < |e.out| && LooksSame(e, e.src[id].body, e.out[NewId(e.kept, id)].body, behind)
  {
    hide At, Ready, NewId, Goes, GoesTo;
    AtBelow(e, id, behind);
    var b := e.src[id].body;
    Copy(e, id);
    ProtoGoes(b, b.ret, behind);
    Onto(e, id, behind, b.ret, behind);
    forall k | 0 <= k < |b.params|
      ensures Goes(e, b.params[k].typ, NewIds(e.kept, |e.src|)[b.params[k].typ], behind) {
      assert ParamIds(b.params)[k] in ParamIds(b.params);
      ProtoGoes(b, b.params[k].typ, behind);
      Onto(e, id, behind, b.params[k].typ, behind);
    }
  }

  lemma ProtoGoes(b: Body, x: Id, behind: bool)
    requires b.FuncProto? && (x == b.ret || x in ParamIds(b.params))
    ensures x in Refs(b) && GoesTo(b, false, x, behind) && GoesTo(b, true, x, behind)
  {
    if x != b.ret {
      var k :| 0 <= k < |b.params| && ParamIds(b.params)[k] == x;
      assert ParamNodes(b.params)[k] in ParamNodes(b.params);
    }
  }

  // --- the match

  lemma {:induction false} MatchKept(e: Setting, lid: Id, id: Id, behind: bool, level: nat)
    requires Ready(e) && At(e, id, behind)
    ensures TypesMatch(e.l, lid, e.out, NewId(e.kept, id), behind, level, e.fuel)
      == TypesMatch(e.l, lid, e.src, id, behind, level, e.fuel)
    decreases level, MATCH_DEPTH + 3, 0
  {
    hide Ready, At, NewId, Skip;
    if level > 0 {
      RoundsKept(e, lid, id, behind, level, MATCH_DEPTH);
    }
  }

  lemma {:induction false} RoundsKept(e: Setting, lid: Id, id: Id, behind: bool, level: nat, depth: nat)
    requires Ready(e) && At(e, id, behind) && level > 0 && depth <= MATCH_DEPTH
    ensures MatchFrom(e.l, lid, e.out, NewId(e.kept, id), behind, level, depth, e.fuel)
      == MatchFrom(e.l, lid, e.src, id, behind, level, depth, e.fuel)
    decreases level, depth + 2, 0
  {
    hide Ready, At, NewId, Skip, NamesMatch, EnumsMatch, Text;
    Skips(e, id, behind);
    var lc, c := Skip(e.l, lid, e.fuel), Skip(e.src, id, e.fuel);
    if depth > 0 && lc.Some? && c.Some? {
      Looks(e, c.value, behind);
      hide SameMembers, SameParams;
      var b, b2 := e.src[c.value].body, e.out[NewId(e.kept, c.value)].body;
      match e.l[lc.value].body
      case Composite(u, _, _, ms) =>
        if !behind && b.Composite? { MembersKept(e, ms, b.members, b2.members, level); }
        SameSize(e, b, b2, behind);
      case Ptr(to) => if b.Ptr? { RoundsKept(e, to, b.to, true, level, depth - 1); }
      case Array(elem, _, _) => if b.Array? { RoundsKept(e, elem, b.elem, behind, level, depth - 1); }
      case FuncProto(ret, ps) =>
        SameSize(e, b, b2, behind);
        if b.FuncProto? && |ps| == |b.params| {
          ParamsKept(e, ps, b.params, b2.params, behind, level);
          RoundsKept(e, ret, b.ret, behind, level, depth - 1);
        }
      case _ =>
    }
  }

  lemma SameSize(e: Setting, b: Body, b2: Body, behind: bool)
    requires LooksSame(e, b, b2, behind)
    ensures b.Composite? && !behind ==> |b2.members| == |b.members|
    ensures b.FuncProto? ==> |b2.params| == |b.params|
  {
  }

  lemma {:induction false} ParamsKept(e: Setting, ps: seq<Param>, qs: seq<Param>, qs2: seq<Param>, behind: bool, level: nat)
    requires Ready(e) && SameParams(e, qs, qs2, behind) && |ps| == |qs| && level > 0
    ensures |qs2| == |ps|
      && ParamsMatch(e.l, ps, e.out, qs2, behind, level, e.fuel) == ParamsMatch(e.l, ps, e.src, qs, behind, level, e.fuel)
    decreases level, 1, |ps|
  {
    hide Ready, At, NewId, TypesMatch;
    if ps != [] {
      assert Goes(e, qs[0].typ, qs2[0].typ, behind);
      MatchKept(e, ps[0].typ, qs[0].typ, behind, level - 1);
      forall k | 0 <= k < |qs[1..]| ensures Goes(e, qs[1..][k].typ, qs2[1..][k].typ, behind) {
        assert Goes(e, qs[k + 1].typ, qs2[k + 1].typ, behind);
      }
      ParamsKept(e, ps[1..], qs[1..], qs2[1..], behind, level);
    }
  }

  lemma {:induction false} MembersKept(e: Setting, ms: seq<Member>, ns: seq<Member>, ns2: seq<Member>, level: nat)
    requires Ready(e) && SameMembers(e, ns, ns2) && level > 0
    ensures MembersMatch(e.l, ms, e.out, ns2, level, e.fuel) == MembersMatch(e.l, ms, e.src, ns, level, e.fuel)
    decreases level, 1, |ms|
  {
    hide Ready, SameMembers, MemberMatch;
    if ms != [] {
      OneMemberKept(e, ms[0], ns, ns2, level);
      MembersKept(e, ms[1..], ns, ns2, level);
    }
  }

  lemma {:induction false} OneMemberKept(e: Setting, m: Member, ns: seq<Member>, ns2: seq<Member>, level: nat)
    requires Ready(e) && SameMembers(e, ns, ns2) && level > 0
    ensures MemberMatch(e.l, m, e.out, ns2, level, e.fuel) == MemberMatch(e.l, m, e.src, ns, level, e.fuel)
    decreases level, 0, |ns|
  {
    hide Ready, At, NewId, TypesMatch;
    if ns != [] {
      assert SameMember(e, ns[0], ns2[0]);
      MatchKept(e, m.typ, ns[0].typ, false, level - 1);
      forall k | 0 <= k < |ns[1..]| ensures SameMember(e, ns[1..][k], ns2[1..][k]) {
        assert SameMember(e, ns[k + 1], ns2[k + 1]);
      }
      OneMemberKept(e, m, ns[1..], ns2[1..], level);
    }
  }

  // A type that a match relocation recorded matches any local type exactly as it does in the source.
  lemma MatchesKept(l: seq<Type>, lid: Id, src: seq<Type>, kept: set<Id>, mems: set<(Id, nat)>, out: seq<Type>, r: Reloc,
    fuel: nat)
    requires Minimised(src, kept, mems, out) && r.MatchReloc? && r.root < |src| && Served(src, r, kept, mems, fuel)
    ensures TypesMatch(l, lid, out, NewId(kept, r.root), false, MATCH_DEPTH, fuel)
      == TypesMatch(l, lid, src, r.root, false, MATCH_DEPTH, fuel)
  {
    hide TypesMatch, MatchIds, MatchMems, MatchGroup, InMarks, Generated, Generable, Closed, ValidBtf;
    var ns :| MatchGroup(src, ns) && (r.root == 0 || Node(r.root, false) in ns) && InMarks(src, ns, kept, mems);
    MatchInGroup(src, ns, r.root, kept, mems);
    if r.root != 0 {
      ComesSelf(src, Node(r.root, false));
    }
    MatchKept(Setting(l, src, kept, mems, out, r.root, fuel), lid, r.root, false, MATCH_DEPTH);
  }
}
