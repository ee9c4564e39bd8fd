/** The marks are the least that serve the relocations: no type and no member is kept that any other
    choice of marks could do without. */
module BtfLeast {
  import opened BtfTypes
  import opened BtfMatch
  import opened BtfMark
  import opened BtfOut
  import opened BtfGet
  import opened BtfTheorem

  ghost predicate ServesAll(ts: seq<Type>, rs: seq<Reloc>, kept: set<Id>, mems: set<(Id, nat)>, fuel: nat) {
    Closed(ts, kept) && forall r | r in rs :: Served(ts, r, kept, mems, fuel)
  }

  // Closed marks with a type have everything that marking it reaches.
  lemma {:induction false} ReachInClosed(ts: seq<Type>, rank: seq<nat>, id: Id, kept: set<Id>)
    requires Ranked(ts, rank, false) && id < |ts| && Closed(ts, kept) && (id == 0 || id in kept)
    ensures Reach(ts, rank, id, false) <= kept
    decreases rank[id]
  {
    hide Ranked, Targets, Refs, Closed;
    RefsInRange(ts, rank, id);
    if id == 0 {
      ReachNone(ts, rank, false);
    } else {
      ReachIs(ts, rank, id, false);
      hide Reach;
      forall t | t in Targets(ts[id].body, false) ensures Reach(ts, rank, t, false) <= kept {
        TargetKept(ts, id, kept, t);
        ReachInClosed(ts, rank, t, kept);
      }
    }
  }

  lemma TargetKept(ts: seq<Type>, id: Id, kept: set<Id>, t: Id)
    requires Closed(ts, kept) && id in kept && id < |ts| && t in Targets(ts[id].body, false)
    ensures t == 0 || t in kept
  {
    TargetsAreRefs(ts[id].body, false);
  }

  // What a path marks, every choice of marks in which it is recorded has.
  lemma {:induction false} PathInRecorded(ts: seq<Type>, rank: seq<nat>, id: Id, path: seq<nat>, fuel: nat,
                                          kept: set<Id>, mems: set<(Id, nat)>)
    requires Ranked(ts, rank, false) && Closed(ts, kept) && Recorded(ts, id, path, kept, mems, fuel)
    ensures PathIds(ts, rank, id, path, fuel) <= kept && PathMems(ts, id, path, fuel) <= mems
    decreases |path|
  {
    hide Ranked, Reach, Closed;
    if path != [] {
      match ts[Skip(ts, id, fuel).value].body
      case Composite(_, _, _, ms) =>
        var t := ms[path[0]].typ;
        PathInRecorded(ts, rank, t, path[1..], fuel, kept, mems);
        if t < |ts| {
          ReachInClosed(ts, rank, t, kept);
        }
      case Array(elem, _, _) => PathInRecorded(ts, rank, elem, path[1..], fuel, kept, mems);
      case _ =>
    }
  }

  // What one relocation marks, every choice of marks that serves it has.
  lemma LeastForOne(ts: seq<Type>, rank: seq<nat>, r: Reloc, fuel: nat, kept: set<Id>, mems: set<(Id, nat)>)
    requires Ranked(ts, rank, true) && Ranked(ts, rank, false) && RelocInRange(ts, r, fuel)
    requires Closed(ts, kept) && Served(ts, r, kept, mems, fuel)
    ensures Needs(ts, rank, r, fuel) <= kept && NeedsMembers(ts, r, fuel) <= mems
  {
    hide Ranked, Reach, Closed, LinkedIds, MatchIds, MatchMems, Group, MatchGroup, InMarks, Recorded, PathIds,
      PathMems, InRange;
    match r
    case FieldReloc(root, raw) =>
      ReachInClosed(ts, rank, root, kept);
      PathInRecorded(ts, rank, root, raw[1..], fuel, kept, mems);
    case TypeReloc(root) =>
      var ids :| Group(ts, ids) && (root == 0 || root in ids) && ids <= kept;
      LinkedInGroup(ts, ids, root);
      ReachIsLinked(ts, rank, root, true);
    case EnumvalReloc(root) =>
      ReachInClosed(ts, rank, root, kept);
    case MatchReloc(root) =>
      var ns :| MatchGroup(ts, ns) && (root == 0 || Node(root, false) in ns) && InMarks(ts, ns, kept, mems);
      MatchInGroup(ts, ns, root, kept, mems);
    case _ =>
  }

  // The marks of all relocations are the least.
  lemma LeastMarks(ts: seq<Type>, rank: seq<nat>, rs: seq<Reloc>, fuel: nat, kept: set<Id>, mems: set<(Id, nat)>)
    requires Ranked(ts, rank, true) && Ranked(ts, rank, false) && forall r | r in rs :: RelocInRange(ts, r, fuel)
    requires ServesAll(ts, rs, kept, mems, fuel)
    ensures NeedsAll(ts, rank, rs, fuel) <= kept && NeedsAllMembers(ts, rs, fuel) <= mems
  {
    hide Ranked, RelocInRange, Needs, NeedsMembers, Closed, Served;
    forall r | r in rs ensures Needs(ts, rank, r, fuel) <= kept && NeedsMembers(ts, r, fuel) <= mems {
      LeastForOne(ts, rank, r, fuel, kept, mems);
    }
  }

  lemma {:induction false} CountMore(a: set<Id>, b: set<Id>, i: Id)
    requires a <= b
    ensures Count(a, i) <= Count(b, i)
    decreases i
  {
    if i > 1 {
      CountMore(a, b, i - 1);
    }
  }

  lemma {:induction false} RankMore(a: set<nat>, b: set<nat>, n: nat)
    requires a <= b
    ensures Rank(a, n) <= Rank(b, n)
  {
    if n > 0 {
      RankMore(a, b, n - 1);
    }
  }

  // Of all minimised BTFs that serve the relocations, that of the least marks has the fewest types,
  // and the fewest members in each.
  lemma Fewest(src: seq<Type>, kept: set<Id>, mems: set<(Id, nat)>, out: seq<Type>, kept2: set<Id>, mems2: set<(Id, nat)>,
    out2: seq<Type>, i: Id)
    requires Minimised(src, kept, mems, out) && Minimised(src, kept2, mems2, out2) && kept <= kept2 && mems <= mems2
    ensures |out| <= |out2|
    ensures i in kept && i < |src| && src[i].body.Composite? ==>
      NewId(kept, i) < |out| && NewId(kept2, i) < |out2|
      && out[NewId(kept, i)].body.Composite? && out2[NewId(kept2, i)].body.Composite?
      && |out[NewId(kept, i)].body.members| <= |out2[NewId(kept2, i)].body.members|
  {
    hide Count, Rank, Closed, Generable, ValidBtf;
    CountMore(kept, kept2, |src|);
    if i in kept && i < |src| && src[i].body.Composite? {
      CompositeKept(src, kept, mems, out, i);
      CompositeKept(src, kept2, mems2, out2, i);
      assert forall k | k in MembersOf(mems, i) :: (i, k) in mems2;
      RankMore(MembersOf(mems, i), MembersOf(mems2, i), |src[i].body.members|);
    }
  }

  // minimize_btf: record the relocations of all objects, then generate.
  method MinimizeBtf(src: seq<Type>, rs: seq<Reloc>, ghost rank: seq<nat>, ghost steps: Node -> nat, ghost fuel: nat)
    returns (err: int, out: Btf?, ghost kept: set<Id>, ghost mems: set<(Id, nat)>)
    requires Ranked(src, rank, true) && (forall x | x in rank :: x <= fuel)
    requires forall r | r in rs :: RelocInRange(src, r, fuel) && (r.MatchReloc? ==> NodesRanked(src, steps))
    ensures err == 0 ==> out != null && Minimised(src, kept, mems, out.types) && ServesAll(src, rs, kept, mems, fuel)
    ensures err == 0 ==> forall kept2, mems2 | ServesAll(src, rs, kept2, mems2, fuel) :: kept <= kept2 && mems <= mems2
    ensures Ranked(src, rank, false) && (err == 0 ==>
      kept == NeedsAll(src, rank, rs, fuel) && mems == NeedsAllMembers(src, rs, fuel))
    ensures var ids, ms := NeedsAll(src, rank, rs, fuel), NeedsAllMembers(src, rs, fuel);
      err == 0 <==> (forall r | r in rs :: Accepted(src, rank, r, fuel)) && Generable(src, ids, ms, |src|)
  {
    hide Marks, Generated, Generable, Ranked, Served, RelocInRange, Accepted, NeedsAll, NeedsAllMembers, NodesRanked;
    hide Closed;
    out, kept, mems := null, {}, {};
    RankedIsValid(src, rank);
    var info := new Info(src);
    NothingClosed(src);
    err := info.RecordAll(rs, rank, steps, fuel);
    if err == 0 {
      kept, mems := info.kept, info.mems;
      assert kept == NeedsAll(src, rank, rs, fuel) && mems == NeedsAllMembers(src, rs, fuel);
      forall kept2, mems2 | ServesAll(src, rs, kept2, mems2, fuel) ensures kept <= kept2 && mems <= mems2 {
        LeastMarks(src, rank, rs, fuel, kept2, mems2);
      }
      err, out := GetBtf(info);
    }
  }

  lemma NothingClosed(ts: seq<Type>)
    ensures Closed(ts, {})
  {
  }
}
