/** The relation "matches" as the relocation engine documents it, without rounds and levels: whenever the
    engine does not give up, it decides that relation. */
module BtfFits {
  import opened BtfTypes
  import opened BtfMatch
  import opened BtfMeaning

  // Past modifiers and typedefs, id is c.
  ghost predicate EndsAt(ts: seq<Type>, id: Id, c: Id) {
    c < |ts| && exists p :: NamesLead(ts, id, c, p)
  }

  // Structs and unions, declared or defined.
  predicate IsTag(b: Body) {
    b.Composite? || b.Fwd?
  }

  predicate IntsFit(b: Body, c: Body) {
    b.Plain? && b.kind.Int? && c.Plain? && c.kind.Int? && b.size == c.size && b.kind.signed == c.kind.signed
  }

  // Every local name is one of the target's, whatever the values are.
  predicate EnumsFit(b: Body, c: Body) {
    b.Plain? && b.kind.Enum? && c.Plain? && c.kind.Enum? && b.size == c.size && |b.kind.values| <= |c.kind.values|
    && forall v | v in b.kind.values :: exists w | w in c.kind.values :: NamesMatch(v.0, w.0)
  }

  // Behind a pointer a declaration is as good as a definition.
  predicate TagsFit(b: Body, c: Body, behind: bool) {
    IsTag(b) && IsTag(c) && b.isUnion == c.isUnion && (behind || (b.Fwd? && c.Fwd?))
  }

  predicate WholesFit(b: Body, c: Body, behind: bool) {
    !behind && b.Composite? && c.Composite? && b.isUnion == c.isUnion && |b.members| <= |c.members|
  }

  predicate NamesFit(l: seq<Type>, lc: Id, t: seq<Type>, tc: Id) {
    lc < |l| && tc < |t| && NamesMatch(Text(l[lc].name), Text(t[tc].name))
  }

  // A local type, and what the target must have for it; names count without their flavors.
  least predicate Fits(l: seq<Type>, lid: Id, t: seq<Type>, tid: Id, behind: bool) {
    exists lc: Id, tc: Id :: EndsAt(l, lid, lc) && EndsAt(t, tid, tc) && FitsAt(l, lc, t, tc, behind)
  }

  least predicate FitsAt(l: seq<Type>, lc: Id, t: seq<Type>, tc: Id, behind: bool) {
    NamesFit(l, lc, t, tc)
    && var b, c := l[lc].body, t[tc].body;
      (b.Void? && c.Void?) || IntsFit(b, c) || EnumsFit(b, c) || TagsFit(b, c, behind)
      || (b.Ptr? && c.Ptr? && Fits(l, b.to, t, c.to, true))
      || (b.Array? && c.Array? && b.nelems == c.nelems && Fits(l, b.elem, t, c.elem, behind))
      || (b.FuncProto? && c.FuncProto? && Fits(l, b.ret, t, c.ret, behind) && ParamsFit(l, b.params, t, c.params, behind))
      || (WholesFit(b, c, behind) && MembersFit(l, b.members, t, c.members))
  }

  // By position.
  least predicate ParamsFit(l: seq<Type>, ps: seq<Param>, t: seq<Type>, qs: seq<Param>, behind: bool) {
    |ps| == |qs| && forall i | 0 <= i < |ps| :: Fits(l, ps[i].typ, t, qs[i].typ, behind)
  }

  // By name, wherever they lie.
  least predicate MembersFit(l: seq<Type>, ms: seq<Member>, t: seq<Type>, ns: seq<Member>) {
    forall i | 0 <= i < |ms| :: MemberFits(l, ms[i], t, ns)
  }

  least predicate MemberFits(l: seq<Type>, m: Member, t: seq<Type>, ns: seq<Member>) {
    exists j | 0 <= j < |ns| :: NamesMatch(Text(m.name), Text(ns[j].name)) && Fits(l, m.typ, t, ns[j].typ, false)
  }

  // --- chains end in one place

  lemma {:induction false} SkipMore(ts: seq<Type>, id: Id, fuel: nat, more: nat)
    requires Skip(ts, id, fuel).Some? && fuel <= more
    ensures Skip(ts, id, more) == Skip(ts, id, fuel)
    decreases fuel
  {
    if Skipped(ts[id].body) {
      SkipMore(ts, ts[id].body.to, fuel - 1, more - 1);
    }
  }

  lemma OneEnd(ts: seq<Type>, id: Id, fuel: nat, c: Id)
    requires Skip(ts, id, fuel).Some?
    ensures EndsAt(ts, id, c) <==> c == Skip(ts, id, fuel).value
  {
    hide NameChain;
    SkipIs(ts, id, fuel, Skip(ts, id, fuel).value);
    if EndsAt(ts, id, c) {
      var p :| NamesLead(ts, id, c, p);
      ChainNotEmpty(ts, p);
      FollowedSkips(ts, p, |p|);
      SkipMore(ts, id, fuel, fuel + |p|);
      SkipMore(ts, id, |p|, fuel + |p|);
    }
  }

  lemma Unfolded(l: seq<Type>, lid: Id, t: seq<Type>, tid: Id, behind: bool, fuel: nat)
    requires Skip(l, lid, fuel).Some? && Skip(t, tid, fuel).Some?
    ensures Fits(l, lid, t, tid, behind) <==> FitsAt(l, Skip(l, lid, fuel).value, t, Skip(t, tid, fuel).value, behind)
  {
    hide EndsAt, IntsFit, EnumsFit, TagsFit, WholesFit, NamesFit, Skip;
    OneEnd(l, lid, fuel, Skip(l, lid, fuel).value);
    OneEnd(t, tid, fuel, Skip(t, tid, fuel).value);
    forall c ensures EndsAt(l, lid, c) <==> c == Skip(l, lid, fuel).value {
      OneEnd(l, lid, fuel, c);
    }
    forall c ensures EndsAt(t, tid, c) <==> c == Skip(t, tid, fuel).value {
      OneEnd(t, tid, fuel, c);
    }
  }

  // --- what the engine decides

  // What it answers about r: yes, no, or an error.
  predicate Decides(r: int, yes: bool) {
    (r > 0 ==> yes) && (r == 0 ==> !yes)
  }

  lemma {:induction false} MatchDecides(l: seq<Type>, lid: Id, t: seq<Type>, tid: Id, behind: bool, level: nat, fuel: nat)
    ensures Decides(TypesMatch(l, lid, t, tid, behind, level, fuel), Fits(l, lid, t, tid, behind))
    decreases level, MATCH_DEPTH + 3, 0
  {
    hide MatchFrom, Fits;
    if level > 0 {
      FromDecides(l, lid, t, tid, behind, level, MATCH_DEPTH, fuel);
    }
  }

  lemma {:induction false} FromDecides(l: seq<Type>, lid: Id, t: seq<Type>, tid: Id, behind: bool, level: nat,
    depth: nat, fuel: nat)
    requires level > 0 && depth <= MATCH_DEPTH
    ensures Decides(MatchFrom(l, lid, t, tid, behind, level, depth, fuel), Fits(l, lid, t, tid, behind))
    decreases level, depth + 2, 0
  {
    hide Fits, Skip, NamesMatch, ParamsMatch, MembersMatch, ParamsFit, MembersFit;
    var lo, to_ := Skip(l, lid, fuel), Skip(t, tid, fuel);
    if depth > 0 && lo.Some? && to_.Some? {
      var lc, tc := lo.value, to_.value;
      Unfolded(l, lid, t, tid, behind, fuel);
      var b, c := l[lc].body, t[tc].body;
      if NamesFit(l, lc, t, tc) {
        match b
        case Plain(k, _) =>
          if k.Enum? && c.Plain? && c.kind.Enum? { EnumNames(b, c); }
        case Ptr(to) =>
          if c.Ptr? { FromDecides(l, to, t, c.to, true, level, depth - 1, fuel); }
        case Array(elem, _, _) =>
          if c.Array? { FromDecides(l, elem, t, c.elem, behind, level, depth - 1, fuel); }
        case FuncProto(ret, ps) =>
          if c.FuncProto? && |ps| == |c.params| {
            ParamsDecide(l, ps, t, c.params, behind, level, fuel);
            FromDecides(l, ret, t, c.ret, behind, level, depth - 1, fuel);
          } else if c.FuncProto? {
            ParamsLength(l, ps, t, c.params, behind);
          }
        case Composite(_, _, _, ms) =>
          if WholesFit(b, c, behind) { MembersDecide(l, ms, t, c.members, level, fuel); }
        case _ =>
      }
    }
  }

  lemma EnumNames(b: Body, c: Body)
    requires b.Plain? && c.Plain? && b.kind.Enum? && c.kind.Enum?
    ensures EnumsFit(b, c) <==> EnumsMatch(b.size, b.kind.values, c.size, c.kind.values)
  {
    hide NamesMatch;
    var vs, ws := b.kind.values, c.kind.values;
    if EnumsFit(b, c) {
      forall i | 0 <= i < |vs| ensures exists j | 0 <= j < |ws| :: NamesMatch(vs[i].0, ws[j].0) {
        assert vs[i] in vs;
        var w :| w in ws && NamesMatch(vs[i].0, w.0);
        var j :| 0 <= j < |ws| && ws[j] == w;
      }
    }
    if EnumsMatch(b.size, vs, c.size, ws) {
      forall v | v in vs ensures exists w | w in ws :: NamesMatch(v.0, w.0) {
        var i :| 0 <= i < |vs| && vs[i] == v;
        var j :| 0 <= j < |ws| && NamesMatch(vs[i].0, ws[j].0);
        assert ws[j] in ws;
      }
    }
  }

  lemma ParamsLength(l: seq<Type>, ps: seq<Param>, t: seq<Type>, qs: seq<Param>, behind: bool)
    requires |ps| != |qs|
    ensures !ParamsFit(l, ps, t, qs, behind)
  {
  }

  lemma {:induction false} ParamsDecide(l: seq<Type>, ps: seq<Param>, t: seq<Type>, qs: seq<Param>, behind: bool,
                                        level: nat, fuel: nat)
    requires level > 0 && |ps| == |qs|
    ensures Decides(ParamsMatch(l, ps, t, qs, behind, level, fuel), ParamsFit(l, ps, t, qs, behind))
    decreases level, 1, |ps|
  {
    hide TypesMatch, Fits;
    if ps != [] {
      MatchDecides(l, ps[0].typ, t, qs[0].typ, behind, level - 1, fuel);
      ParamsDecide(l, ps[1..], t, qs[1..], behind, level, fuel);
      FirstParam(l, ps, t, qs, behind);
    }
  }

  lemma FirstParam(l: seq<Type>, ps: seq<Param>, t: seq<Type>, qs: seq<Param>, behind: bool)
    requires |ps| == |qs| > 0
    ensures ParamsFit(l, ps, t, qs, behind) <==>
      Fits(l, ps[0].typ, t, qs[0].typ, behind) && ParamsFit(l, ps[1..], t, qs[1..], behind)
  {
    hide Fits;
    if ParamsFit(l, ps, t, qs, behind) {
      forall i | 0 <= i < |ps[1..]| ensures Fits(l, ps[1..][i].typ, t, qs[1..][i].typ, behind) {
        assert Fits(l, ps[i + 1].typ, t, qs[i + 1].typ, behind);
      }
    }
    if Fits(l, ps[0].typ, t, qs[0].typ, behind) && ParamsFit(l, ps[1..], t, qs[1..], behind) {
      forall i | 0 <= i < |ps| ensures Fits(l, ps[i].typ, t, qs[i].typ, behind) {
        if i > 0 { assert Fits(l, ps[1..][i - 1].typ, t, qs[1..][i - 1].typ, behind); }
      }
    }
  }

  lemma {:induction false} MembersDecide(l: seq<Type>, ms: seq<Member>, t: seq<Type>, ns: seq<Member>, level: nat, fuel: nat)
    requires level > 0
    ensures Decides(MembersMatch(l, ms, t, ns, level, fuel), MembersFit(l, ms, t, ns))
    decreases level, 1, |ms|
  {
    hide MemberMatch, MemberFits;
    if ms != [] {
      MemberDecides(l, ms[0], t, ns, level, fuel);
      MembersDecide(l, ms[1..], t, ns, level, fuel);
      FirstMember(l, ms, t, ns);
    }
  }

  lemma FirstMember(l: seq<Type>, ms: seq<Member>, t: seq<Type>, ns: seq<Member>)
    requires ms != []
    ensures MembersFit(l, ms, t, ns) <==> MemberFits(l, ms[0], t, ns) && MembersFit(l, ms[1..], t, ns)
  {
    hide MemberFits;
    if MembersFit(l, ms, t, ns) {
      forall i | 0 <= i < |ms[1..]| ensures MemberFits(l, ms[1..][i], t, ns) {
        assert MemberFits(l, ms[i + 1], t, ns);
      }
    }
    if MemberFits(l, ms[0], t, ns) && MembersFit(l, ms[1..], t, ns) {
      forall i | 0 <= i < |ms| ensures MemberFits(l, ms[i], t, ns) {
        if i > 0 { assert MemberFits(l, ms[1..][i - 1], t, ns); }
      }
    }
  }

  lemma {:induction false} MemberDecides(l: seq<Type>, m: Member, t: seq<Type>, ns: seq<Member>, level: nat, fuel: nat)
    requires level > 0
    ensures Decides(MemberMatch(l, m, t, ns, level, fuel), MemberFits(l, m, t, ns))
    decreases level, 0, |ns|
  {
    hide TypesMatch, Fits, NamesMatch;
    if ns != [] {
      MatchDecides(l, m.typ, t, ns[0].typ, false, level - 1, fuel);
      MemberDecides(l, m, t, ns[1..], level, fuel);
      FirstPartner(l, m, t, ns);
    }
  }

  lemma FirstPartner(l: seq<Type>, m: Member, t: seq<Type>, ns: seq<Member>)
    requires ns != []
    ensures MemberFits(l, m, t, ns) <==>
      (NamesMatch(Text(m.name), Text(ns[0].name)) && Fits(l, m.typ, t, ns[0].typ, false)) || MemberFits(l, m, t, ns[1..])
  {
    hide Fits, NamesMatch;
    if MemberFits(l, m, t, ns) {
      var j :| 0 <= j < |ns| && NamesMatch(Text(m.name), Text(ns[j].name)) && Fits(l, m.typ, t, ns[j].typ, false);
      assert j > 0 ==> ns[1..][j - 1] == ns[j];
    }
    if MemberFits(l, m, t, ns[1..]) {
      var j :| 0 <= j < |ns[1..]| && NamesMatch(Text(m.name), Text(ns[1..][j].name))
        && Fits(l, m.typ, t, ns[1..][j].typ, false);
      assert ns[j + 1] == ns[1..][j];
    }
  }

  // --- names

  predicate HasFlavor(s: string) {
    exists i | 0 <= i && i + 5 <= |s| :: FlavorSep(s, i)
  }

  // A flavor does not count, whatever it is.
  lemma FlavorDropped(base: string, flavor: string)
    requires base != [] && flavor != [] && base[|base| - 1] != '_' && flavor[0] != '_' && !HasFlavor(flavor)
    ensures Essential(base + "___" + flavor) == base
  {
    var s := base + "___" + flavor;
    EssentialTo(s, |base|, |s| - 5);
    assert s[..|base|] == base;
  }

  lemma {:induction false} EssentialTo(s: string, n: nat, i: int)
    requires 0 < n && n + 4 <= |s| && n - 1 <= i && i + 5 <= |s| && FlavorSep(s, n - 1)
    requires !HasFlavor(s[n + 3..])
    ensures EssentialFrom(s, i) == n
    decreases i
  {
    if i >= n {
      if FlavorSep(s, i) {
        assert i >= n + 3;
        assert FlavorSep(s[n + 3..], i - n - 3);
      }
      EssentialTo(s, n, i - 1);
    }
  }

  // Without one the whole name does.
  lemma {:induction false} NoFlavor(s: string, i: int)
    requires i + 5 <= |s| && !HasFlavor(s)
    ensures EssentialFrom(s, i) == |s|
    decreases i
  {
    if i >= 0 {
      NoFlavor(s, i - 1);
    }
  }

  lemma WholeName(s: string)
    requires !HasFlavor(s)
    ensures Essential(s) == s
  {
    NoFlavor(s, |s| - 5);
  }
}
