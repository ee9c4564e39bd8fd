/** Marking the types and members that relocations use, in place, in a clone of the source BTF. */
module BtfMark {
  import opened BtfTypes
  import opened BtfMatch

  // The types btfgen_mark_type goes on to from a type it supports.
  function Targets(b: Body, follow: bool): seq<Id> {
    match b
    case Ptr(to) => if follow then [to] else []
    case Mod(_, to) => [to]
    case Typedef(to) => [to]
    case Array(elem, index, _) => [elem, index]
    case FuncProto(ret, ps) => [ret] + ParamIds(ps)
    case _ => []
  }

  // What btfgen_mark_type accepts; btfgen_mark_type_match accepts forward declarations too.
  predicate Supported(b: Body) {
    Keepable(b) && !b.Fwd?
  }

  // The references that are followed have no cycle: rank goes down along them.
  ghost predicate Ranked(ts: seq<Type>, rank: seq<nat>, follow: bool) {
    ValidBtf(ts) && |rank| == |ts| && forall i | 0 <= i < |ts| :: Falls(ts, rank, follow, i)
  }

  ghost predicate Falls(ts: seq<Type>, rank: seq<nat>, follow: bool, i: Id)
    requires i < |ts| == |rank|
  {
    forall x | x in Targets(ts[i].body, follow) :: x < |ts| && rank[x] < rank[i]
  }

  // Everything that marking id comes to.
  ghost function Reach(ts: seq<Type>, rank: seq<nat>, id: Id, follow: bool): set<Id>
    requires Ranked(ts, rank, follow) && id < |ts|
    decreases rank[id]
  {
    if id == 0 then {} else
    assert Falls(ts, rank, follow, id);
    {id} + set t, x | t in Targets(ts[id].body, follow) && x in Reach(ts, rank, t, follow) :: x
  }

  ghost function ReachAll(ts: seq<Type>, rank: seq<nat>, ids: seq<Id>, follow: bool): set<Id>
    requires Ranked(ts, rank, follow) && forall x | x in ids :: x < |ts|
  {
    set t, x | t in ids && x in Reach(ts, rank, t, follow) :: x
  }

  ghost predicate AllSupported(ts: seq<Type>, ids: set<Id>) {
    forall x | x in ids && x < |ts| :: Supported(ts[x].body)
  }

  // A path of followed references, none of them void.
  ghost predicate Leads(ts: seq<Type>, p: seq<Id>, follow: bool) {
    p != [] && (forall k | 0 <= k < |p| :: 0 < p[k] < |ts|) && forall k | 0 <= k < |p| - 1 :: Follows(ts, p, k, follow)
  }

  ghost predicate Follows(ts: seq<Type>, p: seq<Id>, k: nat, follow: bool)
    requires k + 1 < |p|
  {
    p[k] < |ts| && p[k + 1] in Targets(ts[p[k]].body, follow)
  }

  // What is reached is exactly what paths lead to.
  lemma {:induction false} ReachPath(ts: seq<Type>, rank: seq<nat>, id: Id, follow: bool, x: Id) returns (p: seq<Id>)
    requires Ranked(ts, rank, follow) && id < |ts| && x in Reach(ts, rank, id, follow)
    ensures Leads(ts, p, follow) && p[0] == id && p[|p| - 1] == x
    decreases |rank|, if id < |rank| then rank[id] else 0
  {
    hide Reach, Ranked, Targets, Follows;
    var t := ReachVia(ts, rank, id, follow, x);
    if x == id {
      p := [id];
    } else {
      var q := ReachPath(ts, rank, t, follow, x);
      p := [id] + q;
      LeadsCons(ts, id, q, follow);
    }
  }

  lemma LeadsCons(ts: seq<Type>, id: Id, q: seq<Id>, follow: bool)
    requires Leads(ts, q, follow) && 0 < id < |ts| && q[0] in Targets(ts[id].body, follow)
    ensures Leads(ts, [id] + q, follow)
  {
    hide Targets;
    var p := [id] + q;
    forall k | 0 <= k < |p| - 1 ensures Follows(ts, p, k, follow) {
      if k > 0 { assert Follows(ts, q, k - 1, follow); }
    }
  }

  // The first reference on the way.
  lemma ReachVia(ts: seq<Type>, rank: seq<nat>, id: Id, follow: bool, x: Id) returns (t: Id)
    requires Ranked(ts, rank, follow) && id < |ts| && x in Reach(ts, rank, id, follow)
    ensures 0 < id < |ts| && |rank| == |ts|
    ensures x == id
      || (t in Targets(ts[id].body, follow) && t < |ts| && rank[t] < rank[id] && x in Reach(ts, rank, t, follow))
  {
    assert Falls(ts, rank, follow, id);
    if x == id {
      t := 0;
    } else {
      t :| t in Targets(ts[id].body, follow) && x in Reach(ts, rank, t, follow);
    }
  }

  lemma {:induction false} PathReaches(ts: seq<Type>, rank: seq<nat>, p: seq<Id>, follow: bool)
    requires Ranked(ts, rank, follow) && Leads(ts, p, follow)
    ensures p[|p| - 1] in Reach(ts, rank, p[0], follow)
    decreases |p|
  {
    if |p| > 1 {
      var q := p[1..];
      assert Falls(ts, rank, follow, p[0]);
      assert Follows(ts, p, 0, follow);
      forall k | 0 <= k < |q| - 1 ensures Follows(ts, q, k, follow) {
        assert Follows(ts, p, k + 1, follow);
      }
      PathReaches(ts, rank, q, follow);
    }
  }

  ghost predicate Linked(ts: seq<Type>, id: Id, x: Id, follow: bool) {
    exists p :: Leads(ts, p, follow) && p[0] == id && p[|p| - 1] == x
  }

  ghost function LinkedIds(ts: seq<Type>, id: Id, follow: bool): set<Id> {
    set x: Id | x < |ts| && Linked(ts, id, x, follow)
  }

  // The set reached depends on the types only, not on the ranks that show there is no cycle.
  lemma ReachIsPaths(ts: seq<Type>, rank: seq<nat>, id: Id, follow: bool, x: Id)
    requires Ranked(ts, rank, follow) && id < |ts|
    ensures x in Reach(ts, rank, id, follow) <==> Linked(ts, id, x, follow)
  {
    if x in Reach(ts, rank, id, follow) {
      var p := ReachPath(ts, rank, id, follow, x);
    }
    if p :| Leads(ts, p, follow) && p[0] == id && p[|p| - 1] == x {
      PathReaches(ts, rank, p, follow);
    }
  }

  lemma ReachIsLinked(ts: seq<Type>, rank: seq<nat>, id: Id, follow: bool)
    requires Ranked(ts, rank, follow) && id < |ts|
    ensures Reach(ts, rank, id, follow) == LinkedIds(ts, id, follow)
  {
    hide Reach, Ranked, Leads;
    forall x: Id ensures x in Reach(ts, rank, id, follow) <==> Linked(ts, id, x, follow) {
      ReachIsPaths(ts, rank, id, follow, x);
    }
    forall x: Id | Linked(ts, id, x, follow) ensures x < |ts| {
      LinkedInRange(ts, id, x, follow);
    }
  }

  lemma LinkedInRange(ts: seq<Type>, id: Id, x: Id, follow: bool)
    requires Linked(ts, id, x, follow)
    ensures 0 < x < |ts| && 0 < id < |ts|
  {
  }

  // --- when the recursion ends

  // From no type that is followed to does the way lead back.
  ghost predicate NoWayBack(ts: seq<Type>, follow: bool) {
    forall i: Id, x: Id | i < |ts| && x in Targets(ts[i].body, follow) :: !Linked(ts, x, i, follow)
  }

  lemma LinkedIs(ts: seq<Type>, i: Id, x: Id, follow: bool)
    ensures x in LinkedIds(ts, i, follow) <==> Linked(ts, i, x, follow)
  {
    if Linked(ts, i, x, follow) {
      LinkedInRange(ts, i, x, follow);
    }
  }

  lemma StepThenLinked(ts: seq<Type>, i: Id, x: Id, y: Id, follow: bool)
    requires 0 < i < |ts| && x in Targets(ts[i].body, follow) && Linked(ts, x, y, follow)
    ensures Linked(ts, i, y, follow)
  {
    hide Targets;
    var q :| Leads(ts, q, follow) && q[0] == x && q[|q| - 1] == y;
    LeadsCons(ts, i, q, follow);
    assert ([i] + q)[0] == i && ([i] + q)[|q|] == y;
  }

  lemma TargetBelow(ts: seq<Type>, i: Id, x: Id, follow: bool)
    requires ValidBtf(ts) && i < |ts| && x in Targets(ts[i].body, follow)
    ensures x < |ts| && 0 < i
  {
    assert i > 0;
    assert ValidType(|ts|, ts[i]);
    assert x in Refs(ts[i].body);
  }

  // A step leaves less to reach.
  lemma LinkedFalls(ts: seq<Type>, i: Id, x: Id, follow: bool)
    requires ValidBtf(ts) && NoWayBack(ts, follow) && i < |ts| && x in Targets(ts[i].body, follow)
    ensures x < |ts| && |LinkedIds(ts, x, follow)| < |LinkedIds(ts, i, follow)|
  {
    hide Linked, Targets, ValidBtf, LinkedIds;
    TargetBelow(ts, i, x, follow);
    forall y | y in LinkedIds(ts, x, follow) ensures y in LinkedIds(ts, i, follow) {
      LinkedIs(ts, x, y, follow);
      StepThenLinked(ts, i, x, y, follow);
      LinkedIs(ts, i, y, follow);
    }
    assert Linked(ts, i, i, follow) by { LinkedSelf(ts, i, follow); }
    LinkedIs(ts, i, i, follow);
    LinkedIs(ts, x, i, follow);
    FewerIds(LinkedIds(ts, x, follow), LinkedIds(ts, i, follow), i);
  }

  lemma LinkedSelf(ts: seq<Type>, i: Id, follow: bool)
    requires 0 < i < |ts|
    ensures Linked(ts, i, i, follow)
  {
    assert Leads(ts, [i], follow);
  }

  lemma FewerIds(a: set<Id>, b: set<Id>, i: Id)
    requires a <= b && i in b && i !in a
    ensures |a| < |b|
  {
    assert b == a + (b - a) && i in b - a;
  }

  lemma {:induction false} RankFalls(ts: seq<Type>, rank: seq<nat>, p: seq<Id>, follow: bool)
    requires Ranked(ts, rank, follow) && Leads(ts, p, follow)
    ensures p[0] < |rank| && p[|p| - 1] < |rank| && rank[p[|p| - 1]] <= rank[p[0]]
    decreases |p|
  {
    if |p| > 1 {
      var q := p[1..];
      assert Falls(ts, rank, follow, p[0]) && Follows(ts, p, 0, follow);
      forall k | 0 <= k < |q| - 1 ensures Follows(ts, q, k, follow) {
        assert Follows(ts, p, k + 1, follow);
      }
      RankFalls(ts, rank, q, follow);
    }
  }

  // btfgen_mark_type ends, wherever it starts, if and only if no way leads back to where it has been.
  lemma MarkEnds(ts: seq<Type>, follow: bool)
    requires ValidBtf(ts)
    ensures (exists rank :: Ranked(ts, rank, follow)) <==> NoWayBack(ts, follow)
  {
    if rank :| Ranked(ts, rank, follow) {
      forall i: Id, x: Id | i < |ts| && x in Targets(ts[i].body, follow) ensures !Linked(ts, x, i, follow) {
        assert Falls(ts, rank, follow, i);
        if p :| Leads(ts, p, follow) && p[0] == x && p[|p| - 1] == i {
          RankFalls(ts, rank, p, follow);
        }
      }
    }
    if NoWayBack(ts, follow) {
      var rank := seq(|ts|, i requires 0 <= i < |ts| => |LinkedIds(ts, i, follow)|);
      hide LinkedIds, Targets, NoWayBack, Refs;
      forall i | 0 <= i < |ts| ensures Falls(ts, rank, follow, i) {
        forall x | x in Targets(ts[i].body, follow) ensures x < |ts| && rank[x] < rank[i] {
          LinkedFalls(ts, i, x, follow);
        }
      }
      assert Ranked(ts, rank, follow);
    }
  }

  // --- the marks

  // A type with its name, and the names of the members in ms, overwritten by the mark.
  function WithMarks(t: Type, marked: bool, ms: set<nat>): Type {
    Type(if marked then Marked else t.name,
         if t.body.Composite? then t.body.(members := MarkMembers(t.body.members, ms)) else t.body)
  }

  function MarkMembers(ms: seq<Member>, marked: set<nat>): (r: seq<Member>)
    ensures |r| == |ms| && forall k | 0 <= k < |r| :: r[k] == if k in marked then ms[k].(name := Marked) else ms[k]
  {
    seq(|ms|, k requires 0 <= k < |ms| => if k in marked then ms[k].(name := Marked) else ms[k])
  }

  function MembersOf(mems: set<(Id, nat)>, i: Id): set<nat> {
    set e | e in mems && e.0 == i :: e.1
  }

  // btf is the source with the marks of these types and members.
  ghost predicate Marks(src: seq<Type>, btf: seq<Type>, kept: set<Id>, mems: set<(Id, nat)>) {
    |btf| == |src| && (forall i | 0 <= i < |src| :: btf[i] == WithMarks(src[i], i in kept, MembersOf(mems, i)))
    && (forall i | i in kept :: 0 < i < |src|)
    && forall e | e in mems :: e.0 < |src| && src[e.0].body.Composite? && e.1 < |src[e.0].body.members|
  }

  lemma MarkOne(src: seq<Type>, btf: seq<Type>, kept: set<Id>, mems: set<(Id, nat)>, i: Id)
    requires Marks(src, btf, kept, mems) && 0 < i < |src|
    ensures Marks(src, btf[i := btf[i].(name := Marked)], kept + {i}, mems)
  {
  }

  lemma MarkOneMember(src: seq<Type>, btf: seq<Type>, kept: set<Id>, mems: set<(Id, nat)>, i: Id, k: nat)
    requires Marks(src, btf, kept, mems) && i < |src| && src[i].body.Composite? && k < |src[i].body.members|
    ensures btf[i].body.Composite? && k < |btf[i].body.members|
    ensures var ms := btf[i].body.members;
      Marks(src, btf[i := btf[i].(body := btf[i].body.(members := ms[k := ms[k].(name := Marked)]))], kept, mems + {(i, k)})
  {
    var b := btf[i].body;
    var ms := b.members;
    var b2 := b.(members := ms[k := ms[k].(name := Marked)]);
    var mems2 := mems + {(i, k)};
    assert MembersOf(mems2, i) == MembersOf(mems, i) + {k};
    assert b2.members == MarkMembers(src[i].body.members, MembersOf(mems2, i));
    forall j | 0 <= j < |src| && j != i ensures MembersOf(mems2, j) == MembersOf(mems, j) {
    }
  }

  // Everything on the path has been marked, except that element types of arrays go unmarked if void.
  ghost predicate Recorded(ts: seq<Type>, id: Id, path: seq<nat>, kept: set<Id>, mems: set<(Id, nat)>, fuel: nat)
    decreases |path|
  {
    path == [] ||
    var c := Skip(ts, id, fuel);
    c.Some?
    && match ts[c.value].body
       case Composite(_, _, _, ms) =>
         path[0] < |ms| && (c.value, path[0]) in mems && (ms[path[0]].typ == 0 || ms[path[0]].typ in kept)
         && Recorded(ts, ms[path[0]].typ, path[1..], kept, mems, fuel)
       case Array(elem, _, _) => Recorded(ts, elem, path[1..], kept, mems, fuel)
       case _ => false
  }

  // More marks, or more fuel, keep a path recorded.
  lemma {:induction false} RecordedGrows(ts: seq<Type>, id: Id, path: seq<nat>, kept: set<Id>, mems: set<(Id, nat)>, fuel: nat,
                                          kept2: set<Id>, mems2: set<(Id, nat)>)
    requires Recorded(ts, id, path, kept, mems, fuel) && kept <= kept2 && mems <= mems2
    ensures Recorded(ts, id, path, kept2, mems2, fuel)
    decreases |path|
  {
    if path != [] {
      match ts[Skip(ts, id, fuel).value].body
      case Composite(_, _, _, ms) => RecordedGrows(ts, ms[path[0]].typ, path[1..], kept, mems, fuel, kept2, mems2);
      case Array(elem, _, _) => RecordedGrows(ts, elem, path[1..], kept, mems, fuel, kept2, mems2);
      case _ =>
    }
  }

  // The type a path leads to.
  function End(ts: seq<Type>, id: Id, path: seq<nat>, fuel: nat): Option<Id>
    decreases |path|
  {
    if path == [] then Some(id) else
    var c := Skip(ts, id, fuel);
    if c.None? then None else
    match ts[c.value].body
    case Composite(_, _, _, ms) => if path[0] < |ms| then End(ts, ms[path[0]].typ, path[1..], fuel) else None
    case Array(elem, _, _) => End(ts, elem, path[1..], fuel)
    case _ => None
  }

  lemma {:induction false} RecordedSnoc(ts: seq<Type>, id: Id, path: seq<nat>, x: nat, kept: set<Id>,
    mems: set<(Id, nat)>, fuel: nat)
    ensures Recorded(ts, id, path + [x], kept, mems, fuel) <==>
      Recorded(ts, id, path, kept, mems, fuel) && End(ts, id, path, fuel).Some?
      && Recorded(ts, End(ts, id, path, fuel).value, [x], kept, mems, fuel)
    ensures End(ts, id, path + [x], fuel) ==
      if End(ts, id, path, fuel).None? then None else End(ts, End(ts, id, path, fuel).value, [x], fuel)
    decreases |path|
  {
    if path == [] {
      assert path + [x] == [x];
    } else {
      assert (path + [x])[1..] == path[1..] + [x];
      var c := Skip(ts, id, fuel);
      if c.Some? {
        match ts[c.value].body
        case Composite(_, _, _, ms) =>
          if path[0] < |ms| { RecordedSnoc(ts, ms[path[0]].typ, path[1..], x, kept, mems, fuel); }
        case Array(elem, _, _) => RecordedSnoc(ts, elem, path[1..], x, kept, mems, fuel);
        case _ =>
      }
    }
  }

  // The path stays in composites and arrays, and everything btfgen_mark_type comes to is supported.
  ghost predicate Recordable(ts: seq<Type>, rank: seq<nat>, id: Id, path: seq<nat>, fuel: nat)
    requires Ranked(ts, rank, false)
    decreases |path|
  {
    path == [] ||
    var c := Skip(ts, id, fuel);
    c.Some?
    && match ts[c.value].body
       case Composite(_, _, _, ms) =>
         path[0] < |ms| && ms[path[0]].typ < |ts| && AllSupported(ts, Reach(ts, rank, ms[path[0]].typ, false))
         && Recordable(ts, rank, ms[path[0]].typ, path[1..], fuel)
       case Array(elem, _, _) => Recordable(ts, rank, elem, path[1..], fuel)
       case _ => false
  }

  lemma {:induction false} RecordableSnoc(ts: seq<Type>, rank: seq<nat>, id: Id, path: seq<nat>, x: nat, fuel: nat)
    requires Ranked(ts, rank, false)
    ensures Recordable(ts, rank, id, path + [x], fuel) <==>
      Recordable(ts, rank, id, path, fuel) && End(ts, id, path, fuel).Some?
      && Recordable(ts, rank, End(ts, id, path, fuel).value, [x], fuel)
    decreases |path|
  {
    hide Ranked;
    if path == [] {
      assert path + [x] == [x];
    } else {
      assert (path + [x])[1..] == path[1..] + [x];
      var c := Skip(ts, id, fuel);
      if c.Some? {
        match ts[c.value].body
        case Composite(_, _, _, ms) =>
          if path[0] < |ms| { RecordableSnoc(ts, rank, ms[path[0]].typ, path[1..], x, fuel); }
        case Array(elem, _, _) => RecordableSnoc(ts, rank, elem, path[1..], x, fuel);
        case _ =>
      }
    }
  }

  // Kept types are keepable, and so is what they refer to other than through pointers and members.
  ghost predicate Closed(ts: seq<Type>, kept: set<Id>) {
    forall i | i in kept :: 0 < i < |ts| && Keepable(ts[i].body)
      && (ts[i].body.Ptr? || ts[i].body.Composite? || forall x | x in Refs(ts[i].body) :: x == 0 || x in kept)
  }

  // What is followed are the references of a type, except members, and pointers only on demand.
  lemma TargetsAreRefs(b: Body, follow: bool)
    requires Keepable(b)
    ensures Targets(b, follow) == if b.Composite? || (b.Ptr? && !follow) then [] else Refs(b)
  {
  }

  lemma ClosedMore(ts: seq<Type>, rank: seq<nat>, kept: set<Id>, id: Id, follow: bool)
    requires Ranked(ts, rank, follow) && Closed(ts, kept) && id < |ts| && AllSupported(ts, Reach(ts, rank, id, follow))
    ensures Closed(ts, kept + Reach(ts, rank, id, follow))
  {
    var r := Reach(ts, rank, id, follow);
    forall i | i in r
      ensures 0 < i < |ts| && forall x | x in Targets(ts[i].body, false) :: x == 0 || x in r
    {
      ReachStep(ts, rank, id, follow, i);
      TargetsAreRefs(ts[i].body, false);
    }
  }

  // Where a reference of a reached type leads is reached too.
  lemma {:induction false} ReachStep(ts: seq<Type>, rank: seq<nat>, id: Id, follow: bool, i: Id)
    requires Ranked(ts, rank, follow) && id < |ts| && i in Reach(ts, rank, id, follow)
    ensures 0 < i < |ts| && forall x | x in Targets(ts[i].body, false) :: x == 0 || x in Reach(ts, rank, id, follow)
    decreases rank[id]
  {
    var t := ReachVia(ts, rank, id, follow, i);
    ReachIs(ts, rank, id, follow);
    if i == id {
      forall x | x in Targets(ts[i].body, false) && x != 0 ensures x in Reach(ts, rank, id, follow) {
        assert x in Targets(ts[i].body, follow) && x in Reach(ts, rank, x, follow);
      }
    } else {
      hide Reach, Ranked, Targets;
      ReachStep(ts, rank, t, follow, i);
    }
  }

  lemma ReachIs(ts: seq<Type>, rank: seq<nat>, id: Id, follow: bool)
    requires Ranked(ts, rank, follow) && 0 < id < |ts|
    ensures forall x | x in Targets(ts[id].body, follow) :: x < |ts| && rank[x] < rank[id]
    ensures Reach(ts, rank, id, follow) == {id} + ReachAll(ts, rank, Targets(ts[id].body, follow), follow)
  {
    assert Falls(ts, rank, follow, id);
  }

  lemma ReachAllSnoc(ts: seq<Type>, rank: seq<nat>, ids: seq<Id>, id: Id, follow: bool)
    requires Ranked(ts, rank, follow) && id < |ts| && forall x | x in ids :: x < |ts|
    ensures ReachAll(ts, rank, ids + [id], follow) == ReachAll(ts, rank, ids, follow) + Reach(ts, rank, id, follow)
  {
    hide Reach;
  }

  // The relocation engine only hands out member indices that exist.
  ghost predicate InRange(ts: seq<Type>, id: Id, path: seq<nat>, fuel: nat) {
    forall i | 0 <= i < |path| :: StepInRange(ts, End(ts, id, path[..i], fuel), path[i], fuel)
  }

  ghost predicate StepInRange(ts: seq<Type>, at: Option<Id>, x: nat, fuel: nat) {
    at.Some? && Skip(ts, at.value, fuel).Some? ==>
      var b := ts[Skip(ts, at.value, fuel).value].body; b.Composite? ==> x < |b.members|
  }

  lemma RootReached(ts: seq<Type>, rank: seq<nat>, id: Id)
    requires Ranked(ts, rank, false) && id < |ts|
    ensures id == 0 || id in Reach(ts, rank, id, false)
  {
  }

  lemma RefsInRange(ts: seq<Type>, rank: seq<nat>, i: Id)
    requires Ranked(ts, rank, false) && i < |ts|
    ensures forall x | x in Refs(ts[i].body) :: x < |ts|
    ensures |rank| == |ts|
  {
    if i == 0 { assert Refs(ts[0].body) == []; }
  }

  // A path is recordable only if its beginnings are.
  lemma {:induction false} RecordablePrefix(ts: seq<Type>, rank: seq<nat>, id: Id, path: seq<nat>, i: nat, fuel: nat)
    requires Ranked(ts, rank, false) && i <= |path| && Recordable(ts, rank, id, path, fuel)
    ensures Recordable(ts, rank, id, path[..i], fuel)
    decreases |path|
  {
    var n := |path| - 1;
    if i == |path| {
      assert path[..i] == path;
    } else {
      assert path == path[..n] + [path[n]];
      RecordableSnoc(ts, rank, id, path[..n], path[n], fuel);
      RecordablePrefix(ts, rank, id, path[..n], i, fuel);
      assert path[..n][..i] == path[..i];
    }
  }

  lemma NoPath(ts: seq<Type>, rank: seq<nat>, id: Id, fuel: nat)
    requires Ranked(ts, rank, false)
    ensures PathIds(ts, rank, id, [], fuel) == {} && PathMems(ts, id, [], fuel) == {}
  {
  }

  lemma NothingRecorded(ts: seq<Type>, rank: seq<nat>, id: Id, kept: set<Id>, mems: set<(Id, nat)>, fuel: nat)
    requires Ranked(ts, rank, false)
    ensures Recorded(ts, id, [], kept, mems, fuel) && Recordable(ts, rank, id, [], fuel)
  {
  }

  // The types that a path marks behind its root, and its members: btfgen_mark_type is called for the
  // type of each member on the way.
  ghost function PathIds(ts: seq<Type>, rank: seq<nat>, id: Id, path: seq<nat>, fuel: nat): set<Id>
    requires Ranked(ts, rank, false)
    decreases |path|
  {
    if path == [] || Skip(ts, id, fuel).None? then {} else
    match ts[Skip(ts, id, fuel).value].body
    case Composite(_, _, _, ms) =>
      if path[0] < |ms| && ms[path[0]].typ < |ts| then
        Reach(ts, rank, ms[path[0]].typ, false) + PathIds(ts, rank, ms[path[0]].typ, path[1..], fuel)
      else {}
    case Array(elem, _, _) => PathIds(ts, rank, elem, path[1..], fuel)
    case _ => {}
  }

  function PathMems(ts: seq<Type>, id: Id, path: seq<nat>, fuel: nat): set<(Id, nat)>
    decreases |path|
  {
    if path == [] || Skip(ts, id, fuel).None? then {} else
    var c := Skip(ts, id, fuel).value;
    match ts[c].body
    case Composite(_, _, _, ms) =>
      if path[0] < |ms| then {(c, path[0])} + PathMems(ts, ms[path[0]].typ, path[1..], fuel) else {}
    case Array(elem, _, _) => PathMems(ts, elem, path[1..], fuel)
    case _ => {}
  }

  lemma {:induction false} PathSnoc(ts: seq<Type>, rank: seq<nat>, id: Id, path: seq<nat>, x: nat, fuel: nat)
    requires Ranked(ts, rank, false) && Recordable(ts, rank, id, path, fuel) && End(ts, id, path, fuel).Some?
    ensures PathIds(ts, rank, id, path + [x], fuel)
         == PathIds(ts, rank, id, path, fuel) + PathIds(ts, rank, End(ts, id, path, fuel).value, [x], fuel)
    ensures PathMems(ts, id, path + [x], fuel) == PathMems(ts, id, path, fuel)
      + PathMems(ts, End(ts, id, path, fuel).value, [x], fuel)
    decreases |path|
  {
    hide Ranked, Reach;
    if path == [] {
      assert path + [x] == [x];
    } else {
      assert (path + [x])[1..] == path[1..] + [x];
      match ts[Skip(ts, id, fuel).value].body
      case Composite(_, _, _, ms) => PathSnoc(ts, rank, ms[path[0]].typ, path[1..], x, fuel);
      case Array(elem, _, _) => PathSnoc(ts, rank, elem, path[1..], x, fuel);
    }
  }

  // The target of a relocation; other kinds of relocation are refused.
  datatype Reloc =
    | FieldReloc(root: Id, raw: seq<nat>) | TypeReloc(root: Id) | EnumvalReloc(root: Id) | MatchReloc(root: Id)
    | LocalId | Unknown

  ghost predicate RelocInRange(ts: seq<Type>, r: Reloc, fuel: nat) {
    match r
    case FieldReloc(root, raw) => root < |ts| && raw != [] && InRange(ts, root, raw[1..], fuel)
    case TypeReloc(root) => root < |ts|
    case EnumvalReloc(root) => root < |ts|
    case MatchReloc(root) => root < |ts|
    case _ => true
  }

  // What a type of the group refers to, other than as a member, belongs to the group.
  ghost predicate Group(ts: seq<Type>, ids: set<Id>) {
    forall i | i in ids ::
      0 < i < |ts| && (ts[i].body.Composite? || forall x | x in Refs(ts[i].body) :: x == 0 || x in ids)
  }

  // What a match looks at next: everything a type refers to, members not behind a pointer.
  predicate Continues(b: Body, behind: bool, x: Node) {
    x.id in Refs(b) && !(b.Composite? && behind) && (x.behind <==> b.Ptr? || (behind && (b.Mod? || b.Typedef?)))
  }

  ghost predicate MatchGroup(ts: seq<Type>, ns: set<Node>) {
    forall n | n in ns ::
      0 < n.id < |ts| && forall x: Node | Continues(ts[n.id].body, n.behind, x) :: x.id == 0 || x in ns
  }

  // The types are marked, and the members of composites not behind a pointer.
  ghost predicate InMarks(ts: seq<Type>, ns: set<Node>, kept: set<Id>, mems: set<(Id, nat)>) {
    forall n | n in ns :: n.id in kept && AllIn(ts, n, mems)
  }

  ghost predicate AllIn(ts: seq<Type>, n: Node, mems: set<(Id, nat)>) {
    n.id < |ts| && ts[n.id].body.Composite? && !n.behind ==> forall k: nat | k < |ts[n.id].body.members| :: (n.id, k) in mems
  }

  // What a relocation needs has been marked.
  ghost predicate Served(ts: seq<Type>, r: Reloc, kept: set<Id>, mems: set<(Id, nat)>, fuel: nat) {
    match r
    case FieldReloc(root, raw) => raw != [] && (root == 0 || root in kept) && Recorded(ts, root, raw[1..], kept, mems, fuel)
    case TypeReloc(root) => exists ids :: Group(ts, ids) && (root == 0 || root in ids) && ids <= kept
    case EnumvalReloc(root) => root == 0 || root in kept
    case MatchReloc(root) =>
      exists ns :: MatchGroup(ts, ns) && (root == 0 || Node(root, false) in ns) && InMarks(ts, ns, kept, mems)
    case LocalId => true
    case Unknown => false
  }

  // What a relocation marks, and when it can be recorded.
  ghost function Needs(ts: seq<Type>, rank: seq<nat>, r: Reloc, fuel: nat): set<Id>
    requires Ranked(ts, rank, true) && Ranked(ts, rank, false) && RelocInRange(ts, r, fuel)
  {
    match r
    case FieldReloc(root, raw) => Reach(ts, rank, root, false) + PathIds(ts, rank, root, raw[1..], fuel)
    case TypeReloc(root) => Reach(ts, rank, root, true)
    case EnumvalReloc(root) => Reach(ts, rank, root, false)
    case MatchReloc(root) => MatchIds(ts, root)
    case _ => {}
  }

  ghost function NeedsMembers(ts: seq<Type>, r: Reloc, fuel: nat): set<(Id, nat)> {
    if r.FieldReloc? && r.raw != [] then PathMems(ts, r.root, r.raw[1..], fuel)
    else if r.MatchReloc? then MatchMems(ts, r.root) else {}
  }

  ghost predicate Accepted(ts: seq<Type>, rank: seq<nat>, r: Reloc, fuel: nat)
    requires Ranked(ts, rank, true) && Ranked(ts, rank, false) && RelocInRange(ts, r, fuel)
  {
    match r
    case FieldReloc(root, raw) =>
      AllSupported(ts, Reach(ts, rank, root, false)) && Recordable(ts, rank, root, raw[1..], fuel)
    case TypeReloc(root) => AllSupported(ts, Reach(ts, rank, root, true))
    case EnumvalReloc(root) => AllSupported(ts, Reach(ts, rank, root, false))
    case MatchReloc(root) => AllKeepable(ts, MatchIds(ts, root))
    case LocalId => true
    case Unknown => false
  }

  // What several relocations mark together.
  ghost function NeedsAll(ts: seq<Type>, rank: seq<nat>, rs: seq<Reloc>, fuel: nat): set<Id>
    requires Ranked(ts, rank, true) && Ranked(ts, rank, false) && forall r | r in rs :: RelocInRange(ts, r, fuel)
  {
    set r, x | r in rs && x in Needs(ts, rank, r, fuel) :: x
  }

  ghost function NeedsAllMembers(ts: seq<Type>, rs: seq<Reloc>, fuel: nat): set<(Id, nat)> {
    set r, x | r in rs && x in NeedsMembers(ts, r, fuel) :: x
  }

  lemma NeedsSnoc(ts: seq<Type>, rank: seq<nat>, rs: seq<Reloc>, r: Reloc, fuel: nat)
    requires Ranked(ts, rank, true) && Ranked(ts, rank, false) && forall x | x in rs + [r] :: RelocInRange(ts, x, fuel)
    ensures r in rs + [r] && forall x | x in rs :: x in rs + [r]
    ensures NeedsAll(ts, rank, rs + [r], fuel) == NeedsAll(ts, rank, rs, fuel) + Needs(ts, rank, r, fuel)
    ensures NeedsAllMembers(ts, rs + [r], fuel) == NeedsAllMembers(ts, rs, fuel) + NeedsMembers(ts, r, fuel)
  {
    hide Ranked, RelocInRange, Needs, NeedsMembers;
    assert r in rs + [r] && forall x | x in rs :: x in rs + [r];
  }

  // --- groups are what paths lead to

  lemma OnwardIs(b: Body, behind: bool, x: Node)
    requires Keepable(b)
    ensures x in Onward(b, behind) <==> Continues(b, behind, x)
  {
    if x in Onward(b, behind) {
      OnwardRef(b, behind, x);
      match b
      case Composite(_, _, _, ms) =>
      case FuncProto(ret, ps) =>
      case _ =>
    }
    if Continues(b, behind, x) {
      match b
      case Composite(_, _, _, ms) =>
        var k :| 0 <= k < |ms| && MemberIds(ms)[k] == x.id;
        assert MemberNodes(ms)[k] == x;
      case FuncProto(ret, ps) =>
        if x.id != ret {
          var k :| 0 <= k < |ps| && ParamIds(ps)[k] == x.id;
          assert ParamNodes(ps)[k] == x && x in ParamNodes(ps);
        }
      case _ =>
    }
  }

  // A group has everything its types lead to.
  lemma GroupHas(ts: seq<Type>, ids: set<Id>, p: seq<Id>)
    requires Group(ts, ids) && Leads(ts, p, true) && p[0] in ids
    ensures forall k | 0 <= k < |p| :: p[k] in ids
  {
    for k := 1 to |p|
      invariant forall j | 0 <= j < k :: p[j] in ids
    {
      assert Follows(ts, p, k - 1, true) && p[k - 1] in ids;
      TargetIsRef(ts[p[k - 1]].body, p[k]);
    }
  }

  lemma TargetIsRef(b: Body, x: Id)
    requires x in Targets(b, true)
    ensures x in Refs(b) && !b.Composite?
  {
  }

  lemma LinkedInGroup(ts: seq<Type>, ids: set<Id>, root: Id)
    requires Group(ts, ids) && (root == 0 || root in ids)
    ensures LinkedIds(ts, root, true) <= ids
  {
    hide Group;
    forall x | x in LinkedIds(ts, root, true) ensures x in ids {
      var p :| Leads(ts, p, true) && p[0] == root && p[|p| - 1] == x;
      GroupHas(ts, ids, p);
    }
  }

  lemma LinkedOn(ts: seq<Type>, root: Id, id: Id, x: Id)
    requires Linked(ts, root, id, true) && id < |ts| && x in Targets(ts[id].body, true) && 0 < x < |ts|
    ensures Linked(ts, root, x, true)
  {
    var p :| Leads(ts, p, true) && p[0] == root && p[|p| - 1] == id;
    var q := p + [x];
    forall k | 0 <= k < |q| - 1 ensures Follows(ts, q, k, true) {
      if k < |p| - 1 { assert Follows(ts, p, k, true); }
    }
    assert Leads(ts, q, true);
  }

  // What a type leads to is a group.
  lemma LinkedGroup(ts: seq<Type>, root: Id)
    requires ValidBtf(ts) && root < |ts| && AllSupported(ts, LinkedIds(ts, root, true))
    ensures Group(ts, LinkedIds(ts, root, true)) && (root == 0 || root in LinkedIds(ts, root, true))
  {
    hide Linked;
    var ids := LinkedIds(ts, root, true);
    if root != 0 {
      LinkedSelf(ts, root, true);
    }
    forall i | i in ids
      ensures 0 < i < |ts| && (ts[i].body.Composite? || forall x | x in Refs(ts[i].body) :: x == 0 || x in ids)
    {
      LinkedInRange(ts, root, i, true);
      TargetsAreRefs(ts[i].body, true);
      if !ts[i].body.Composite? {
        forall x | x in Refs(ts[i].body) && x != 0 ensures x in ids {
          assert ValidType(|ts|, ts[i]);
          LinkedOn(ts, root, i, x);
        }
      }
    }
  }

  lemma MatchGroupHas(ts: seq<Type>, ns: set<Node>, p: seq<Node>)
    requires MatchGroup(ts, ns) && NodePath(ts, p) && p[0] in ns && forall n | n in ns && n.id < |ts| :: Keepable(ts[n.id].body)
    ensures forall k | 0 <= k < |p| :: p[k] in ns
  {
    hide Onward, Continues;
    for k := 1 to |p|
      invariant forall j | 0 <= j < k :: p[j] in ns
    {
      assert GoesOn(ts, p, k - 1) && p[k - 1] in ns;
      OnwardIs(ts[p[k - 1].id].body, p[k - 1].behind, p[k]);
    }
  }

  lemma MatchInGroup(ts: seq<Type>, ns: set<Node>, root: Id, kept: set<Id>, mems: set<(Id, nat)>)
    requires MatchGroup(ts, ns) && (root == 0 || Node(root, false) in ns) && InMarks(ts, ns, kept, mems) && Closed(ts, kept)
    ensures MatchIds(ts, root) <= kept && MatchMems(ts, root) <= mems
  {
    hide MatchGroup;
    forall n: Node | Comes(ts, Node(root, false), n) ensures n in ns {
      var p :| NodePath(ts, p) && p[0] == Node(root, false) && p[|p| - 1] == n;
      MatchGroupHas(ts, ns, p);
    }
    hide Comes;
    forall e | e in MatchMems(ts, root) ensures e in mems {
      assert Comes(ts, Node(root, false), Node(e.0, false));
      assert Node(e.0, false) in ns && AllIn(ts, Node(e.0, false), mems);
    }
  }

  ghost function ComingNodes(ts: seq<Type>, root: Id): set<Node> {
    set i: Id, b: bool | i < |ts| && Comes(ts, Node(root, false), Node(i, b)) :: Node(i, b)
  }

  // What a match comes to is a group.
  lemma ComingGroup(ts: seq<Type>, root: Id, kept: set<Id>, mems: set<(Id, nat)>)
    requires ValidBtf(ts) && root < |ts| && AllKeepable(ts, MatchIds(ts, root))
    requires MatchIds(ts, root) <= kept && MatchMems(ts, root) <= mems
    ensures var ns := ComingNodes(ts, root);
      MatchGroup(ts, ns) && (root == 0 || Node(root, false) in ns) && InMarks(ts, ns, kept, mems)
  {
    hide Comes, Onward, Continues;
    var ns := ComingNodes(ts, root);
    if root != 0 {
      ComesSelf(ts, Node(root, false));
    }
    forall n | n in ns ensures 0 < n.id < |ts| && n.id in kept && AllIn(ts, n, mems) {
      ComesInRange(ts, Node(root, false), n);
      assert n.id in MatchIds(ts, root);
      forall k: nat | ts[n.id].body.Composite? && !n.behind && k < |ts[n.id].body.members| ensures (n.id, k) in mems {
        assert (n.id, k) in MatchMems(ts, root);
      }
    }
    forall n: Node, x: Node | n in ns && Continues(ts[n.id].body, n.behind, x) ensures x.id == 0 || x in ns {
      assert n.id in MatchIds(ts, root);
      OnwardIs(ts[n.id].body, n.behind, x);
      OnwardBelow(ts, n, x);
      if x.id != 0 {
        ComesOn(ts, Node(root, false), n, x);
      }
    }
  }

  lemma ServedType(ts: seq<Type>, rank: seq<nat>, root: Id, kept: set<Id>, mems: set<(Id, nat)>, fuel: nat)
    requires Ranked(ts, rank, true) && root < |ts| && AllSupported(ts, Reach(ts, rank, root, true))
    requires Reach(ts, rank, root, true) <= kept
    ensures Served(ts, TypeReloc(root), kept, mems, fuel)
  {
    hide Reach, LinkedIds;
    ReachIsLinked(ts, rank, root, true);
    LinkedGroup(ts, root);
  }

  lemma ServedMatch(ts: seq<Type>, root: Id, kept: set<Id>, mems: set<(Id, nat)>, fuel: nat)
    requires ValidBtf(ts) && root < |ts| && AllKeepable(ts, MatchIds(ts, root))
    requires MatchIds(ts, root) <= kept && MatchMems(ts, root) <= mems
    ensures Served(ts, MatchReloc(root), kept, mems, fuel)
  {
    hide MatchIds, MatchMems, AllKeepable, MatchGroup, InMarks;
    ComingGroup(ts, root, kept, mems);
  }

  lemma ServedGrows(ts: seq<Type>, r: Reloc, kept: set<Id>, mems: set<(Id, nat)>, fuel: nat, kept2: set<Id>,
    mems2: set<(Id, nat)>)
    requires Served(ts, r, kept, mems, fuel) && kept <= kept2 && mems <= mems2
    ensures Served(ts, r, kept2, mems2, fuel)
  {
    match r
    case FieldReloc(root, raw) => RecordedGrows(ts, root, raw[1..], kept, mems, fuel, kept2, mems2);
    case TypeReloc(root) =>
      var ids :| Group(ts, ids) && (root == 0 || root in ids) && ids <= kept;
      assert ids <= kept2;
    case MatchReloc(root) =>
      var ns :| MatchGroup(ts, ns) && (root == 0 || Node(root, false) in ns) && InMarks(ts, ns, kept, mems);
      assert InMarks(ts, ns, kept2, mems2);
    case _ =>
  }

  lemma RankedIsValid(ts: seq<Type>, rank: seq<nat>)
    requires Ranked(ts, rank, true)
    ensures ValidBtf(ts)
  {
  }

  lemma NoneKeepable(ts: seq<Type>)
    ensures AllKeepable(ts, {})
  {
  }

  lemma ClosedMatch(ts: seq<Type>, steps: Node -> nat, kept: set<Id>, root: Id)
    requires NodesRanked(ts, steps) && Closed(ts, kept) && root < |ts| && AllKeepable(ts, MatchIds(ts, root))
    ensures Closed(ts, kept + MatchIds(ts, root)) && (root == 0 || root in MatchIds(ts, root))
  {
    hide Comes;
    var ids, r := MatchIds(ts, root), Node(root, false);
    if root != 0 {
      ComesSelf(ts, r);
    }
    forall i | i in ids
      ensures 0 < i < |ts| && Keepable(ts[i].body) && forall x | x in Targets(ts[i].body, false) :: x == 0 || x in ids
    {
      var b: bool :| Comes(ts, r, Node(i, b));
      ComesInRange(ts, r, Node(i, b));
      assert NodeFalls(ts, steps, Node(i, b));
      forall x | x in Targets(ts[i].body, false) && x != 0 ensures x in ids {
        var n := TargetOnward(ts[i].body, b, x);
        ComesOn(ts, r, Node(i, b), n);
        assert Comes(ts, r, Node(x, n.behind));
      }
      TargetsAreRefs(ts[i].body, false);
    }
  }

  lemma TargetOnward(b: Body, behind: bool, x: Id) returns (n: Node)
    requires x in Targets(b, false)
    ensures n in Onward(b, behind) && n.id == x
  {
    match b
    case Mod(_, to) => n := Node(to, behind);
    case Typedef(to) => n := Node(to, behind);
    case Array(elem, index, _) => n := Node(x, false);
    case FuncProto(ret, ps) =>
      n := Node(x, false);
      if x != ret {
        var k :| 0 <= k < |ps| && ParamIds(ps)[k] == x;
        assert ParamNodes(ps)[k] == n && n in ParamNodes(ps);
      }
  }

  // Without pointers there are fewer references to follow.
  lemma RankedLess(ts: seq<Type>, rank: seq<nat>)
    requires Ranked(ts, rank, true)
    ensures Ranked(ts, rank, false)
  {
    forall i | 0 <= i < |ts| ensures Falls(ts, rank, false, i) {
      assert Falls(ts, rank, true, i);
      assert forall x | x in Targets(ts[i].body, false) :: x in Targets(ts[i].body, true);
    }
  }

  class Info {
    const src: seq<Type>
    var marked: seq<Type>
    ghost var kept: set<Id>
    ghost var mems: set<(Id, nat)>

    ghost predicate Valid()
      reads this
    {
      Marks(src, marked, kept, mems)
    }

    // btfgen_new_info, from the parsed BTF
    constructor (src: seq<Type>)
      requires ValidBtf(src)
      ensures this.src == src && Valid() && kept == {} && mems == {}
    {
      this.src, marked := src, src;
      kept, mems := {}, {};
      new;
      forall i | 0 <= i < |src| ensures src[i] == WithMarks(src[i], false, MembersOf({}, i)) {
        var b := src[i].body;
        if b.Composite? {
          assert b.members == MarkMembers(b.members, {});
        }
      }
    }

    // Past typedefs and modifiers.
    method SkipMods(id: Id, ghost rank: seq<nat>, ghost fuel: nat) returns (c: Id)
      requires Ranked(src, rank, false) && id < |src| && rank[id] <= fuel
      ensures Skip(src, id, fuel) == Some(c) && c < |src|
    {
      c := id;
      SkipEnds(src, rank, c, fuel);
      ghost var left := fuel;
      while Skipped(src[c].body)
        invariant c < |src| && rank[c] <= left && Skip(src, c, left) == Skip(src, id, fuel)
        decreases left
      {
        SkipEnds(src, rank, c, left);
        c := src[c].body.to;
        left := left - 1;
      }
    }

    // One index of an access path.
    method RecordStep(root: Id, path: seq<nat>, i: nat, typeId: Id, ghost rank: seq<nat>, ghost fuel: nat)
      returns (err: int, next: Id)
      requires Valid() && Closed(src, kept) && Ranked(src, rank, false) && |rank| == |src|
        && (forall x | x in rank :: x <= fuel)
      requires i < |path| && typeId < |src| && End(src, root, path[..i], fuel) == Some(typeId)
      requires StepInRange(src, End(src, root, path[..i], fuel), path[i], fuel)
      requires Recordable(src, rank, root, path[..i], fuel) && Recorded(src, root, path[..i], kept, mems, fuel)
      modifies this`marked, this`kept, this`mems
      ensures Valid() && old(kept) <= kept && old(mems) <= mems
      ensures err == 0 <==> Recordable(src, rank, root, path[..i + 1], fuel)
      ensures err == 0 ==>
        Closed(src, kept) && next < |src| && End(src, root, path[..i + 1], fuel) == Some(next)
        && Recorded(src, root, path[..i + 1], kept, mems, fuel)
        && kept == old(kept) + PathIds(src, rank, typeId, [path[i]], fuel)
        && mems == old(mems) + PathMems(src, typeId, [path[i]], fuel)
    {
      hide Reach, Closed, Ranked, Marks;
      ghost var done, x := path[..i], path[i];
      assert path[..i + 1] == done + [x] && rank[typeId] in rank;
      RecordableSnoc(src, rank, root, done, x, fuel);
      var c := SkipMods(typeId, rank, fuel);
      RefsInRange(src, rank, c);
      match src[c].body
      case Composite(_, _, _, ms) =>
        MarkMember(c, path[i]);
        next := ms[path[i]].typ;
        assert MemberIds(ms)[path[i]] in Refs(src[c].body);
        err := MarkType(next, false, rank);
        if err == 0 {
          ClosedMore(src, rank, old(kept), next, false);
          RootReached(src, rank, next);
          RecordedGrows(src, root, done, old(kept), old(mems), fuel, kept, mems);
          RecordedSnoc(src, root, done, x, kept, mems, fuel);
        }
      case Array(elem, _, _) =>
        next := elem;
        err := 0;
        assert elem in Refs(src[c].body);
        RecordedSnoc(src, root, done, x, kept, mems, fuel);
      case _ =>
        err := -EINVAL;
        next := 0;
    }

    // btfgen_record_field_relo: raw is the target's access path; raw[0] counts whole objects.
    method RecordField(root: Id, raw: seq<nat>, ghost rank: seq<nat>, ghost fuel: nat) returns (err: int)
      requires Valid() && Closed(src, kept) && Ranked(src, rank, false) && (forall x | x in rank :: x <= fuel)
      requires raw != [] && root < |src| && InRange(src, root, raw[1..], fuel)
      modifies this`marked, this`kept, this`mems
      ensures Valid() && old(kept) <= kept && old(mems) <= mems
      ensures err == 0 <==> AllSupported(src, Reach(src, rank, root, false)) && Recordable(src, rank, root, raw[1..], fuel)
      ensures err == 0 ==> Closed(src, kept) && (root == 0 || root in kept) && Recorded(src, root, raw[1..], kept, mems, fuel)
      ensures err == 0 ==> kept == old(kept) + (Reach(src, rank, root, false) + PathIds(src, rank, root, raw[1..], fuel))
      ensures err == 0 ==> mems == old(mems) + PathMems(src, root, raw[1..], fuel)
    {
      hide Reach, Recordable, Recorded, Closed, Skip, Marks, Ranked, StepInRange, PathIds, PathMems;
      var path := raw[1..];
      RefsInRange(src, rank, root);
      assert path[..0] == [];
      err := MarkType(root, false, rank);
      if err != 0 {
        return;
      }
      ClosedMore(src, rank, old(kept), root, false);
      RootReached(src, rank, root);
      NothingRecorded(src, rank, root, kept, mems, fuel);
      NoPath(src, rank, root, fuel);
      var typeId := root;
      for i := 0 to |path|
        invariant Valid() && Closed(src, kept) && old(kept) <= kept && old(mems) <= mems
        invariant err == 0 && typeId < |src| && (root == 0 || root in kept)
        invariant End(src, root, path[..i], fuel) == Some(typeId)
        invariant Recordable(src, rank, root, path[..i], fuel) && Recorded(src, root, path[..i], kept, mems, fuel)
        invariant kept == old(kept) + (Reach(src, rank, root, false) + PathIds(src, rank, root, path[..i], fuel))
        invariant mems == old(mems) + PathMems(src, root, path[..i], fuel)
      {
        PathSnoc(src, rank, root, path[..i], path[i], fuel);
        assert path[..i] + [path[i]] == path[..i + 1];
        assert StepInRange(src, End(src, root, path[..i], fuel), path[i], fuel);
        err, typeId := RecordStep(root, path, i, typeId, rank, fuel);
        if err != 0 {
          if Recordable(src, rank, root, path, fuel) {
            RecordablePrefix(src, rank, root, path, i + 1, fuel);
          }
          return;
        }
      }
      assert path[..|path|] == path;
    }

    // btfgen_record_reloc
    method RecordReloc(r: Reloc, ghost rank: seq<nat>, ghost steps: Node -> nat, ghost fuel: nat) returns (err: int)
      requires Valid() && Closed(src, kept) && Ranked(src, rank, true) && (forall x | x in rank :: x <= fuel)
      requires RelocInRange(src, r, fuel) && (r.MatchReloc? ==> NodesRanked(src, steps))
      modifies this`marked, this`kept, this`mems
      ensures Valid() && old(kept) <= kept && old(mems) <= mems && Ranked(src, rank, false)
      ensures err == 0 <==> Accepted(src, rank, r, fuel)
      ensures err == 0 ==> Closed(src, kept) && Served(src, r, kept, mems, fuel)
      ensures err == 0 ==> kept == old(kept) + Needs(src, rank, r, fuel) && mems == old(mems) + NeedsMembers(src, r, fuel)
    {
      hide Reach, Closed, Marks, Ranked, Recorded, Recordable, PathIds, PathMems, InRange, NodesRanked;
      hide MatchIds, MatchMems, AllKeepable, AllSupported, Group, MatchGroup, InMarks;
      RankedLess(src, rank);
      match r
      case FieldReloc(root, raw) =>
        err := RecordField(root, raw, rank, fuel);
      case TypeReloc(root) =>
        err := MarkRoot(root, true, rank);
        if err == 0 {
          ServedType(src, rank, root, kept, mems, fuel);
        }
      case EnumvalReloc(root) =>
        err := MarkRoot(root, false, rank);
      case MatchReloc(root) =>
        err := MatchRoot(root, steps);
        if err == 0 {
          RankedIsValid(src, rank);
          ServedMatch(src, root, kept, mems, fuel);
        }
      case LocalId =>
        err := 0;
      case Unknown =>
        err := -EINVAL;
    }

    // btfgen_record_type_relo follows pointers, btfgen_record_enumval_relo does not.
    method MarkRoot(root: Id, follow: bool, ghost rank: seq<nat>) returns (err: int)
      requires Valid() && Closed(src, kept) && Ranked(src, rank, follow) && root < |src|
      modifies this`marked, this`kept
      ensures Valid() && old(kept) <= kept && (err == 0 ==> Closed(src, kept) && (root == 0 || root in kept))
      ensures err == 0 <==> AllSupported(src, Reach(src, rank, root, follow))
      ensures err == 0 ==> kept == old(kept) + Reach(src, rank, root, follow)
    {
      hide Closed, Marks, Ranked;
      err := MarkType(root, follow, rank);
      if err == 0 {
        ClosedMore(src, rank, old(kept), root, follow);
      }
    }

    // The relocations of all objects, up to the first error.
    method RecordAll(rs: seq<Reloc>, ghost rank: seq<nat>, ghost steps: Node -> nat, ghost fuel: nat) returns (err: int)
      requires Valid() && Closed(src, kept) && Ranked(src, rank, true) && (forall x | x in rank :: x <= fuel)
      requires forall r | r in rs :: RelocInRange(src, r, fuel) && (r.MatchReloc? ==> NodesRanked(src, steps))
      modifies this`marked, this`kept, this`mems
      ensures Valid() && (err == 0 ==> Closed(src, kept) && forall r | r in rs :: Served(src, r, kept, mems, fuel))
      ensures Ranked(src, rank, false) && (err == 0 <==> forall r | r in rs :: Accepted(src, rank, r, fuel))
      ensures err == 0 ==> kept == old(kept) + NeedsAll(src, rank, rs, fuel)
      ensures err == 0 ==> mems == old(mems) + NeedsAllMembers(src, rs, fuel)
    {
      hide Closed, Marks, Ranked, Served, RelocInRange, Accepted, Needs, NeedsMembers, NodesRanked;
      RankedLess(src, rank);
      err := 0;
      for i := 0 to |rs|
        invariant Valid() && Closed(src, kept) && err == 0
        invariant forall j | 0 <= j < i :: Served(src, rs[j], kept, mems, fuel)
        invariant forall r | r in rs[..i] :: RelocInRange(src, r, fuel) && Accepted(src, rank, r, fuel)
        invariant kept == old(kept) + NeedsAll(src, rank, rs[..i], fuel)
        invariant mems == old(mems) + NeedsAllMembers(src, rs[..i], fuel)
      {
        assert rs[i] in rs && rs[..i + 1] == rs[..i] + [rs[i]];
        NeedsSnoc(src, rank, rs[..i], rs[i], fuel);
        ghost var k0, m0 := kept, mems;
        err := RecordReloc(rs[i], rank, steps, fuel);
        if err != 0 {
          return;
        }
        forall j | 0 <= j < i ensures Served(src, rs[j], kept, mems, fuel) {
          ServedGrows(src, rs[j], k0, m0, fuel, kept, mems);
        }
      }
      assert rs[..|rs|] == rs;
    }

    // btfgen_mark_member
    method MarkMember(id: Id, idx: nat)
      requires Valid() && id < |src| && src[id].body.Composite? && idx < |src[id].body.members|
      modifies this`marked, this`mems
      ensures Valid() && mems == old(mems) + {(id, idx)}
    {
      MarkOneMember(src, marked, kept, mems, id, idx);
      var b := marked[id].body;
      var ms := b.members[idx := b.members[idx].(name := Marked)];
      marked := marked[id := marked[id].(body := b.(members := ms))];
      mems := mems + {(id, idx)};
    }

    // The mark on a type in the clone.
    method MarkId(id: Id)
      requires Valid() && 0 < id < |src|
      modifies this`marked, this`kept
      ensures Valid() && kept == old(kept) + {id}
    {
      MarkOne(src, marked, kept, mems, id);
      marked := marked[id := marked[id].(name := Marked)];
      kept := kept + {id};
    }

    // btfgen_record_type_match_relo
    method MatchRoot(root: Id, ghost steps: Node -> nat) returns (err: int)
      requires Valid() && Closed(src, kept) && NodesRanked(src, steps) && root < |src|
      modifies this`marked, this`kept, this`mems
      ensures Valid() && old(kept) <= kept && old(mems) <= mems
      ensures err == 0 <==> AllKeepable(src, MatchIds(src, root))
      ensures err == 0 ==> Closed(src, kept) && (root == 0 || root in kept)
      ensures err == 0 ==> kept == old(kept) + MatchIds(src, root) && mems == old(mems) + MatchMems(src, root)
    {
      hide NodeReach, NodesRanked, Closed, Marks, MatchIds, MatchMems, IdsOf, MemsOf;
      err := MarkTypeMatch(root, false, steps);
      MatchIsReach(src, steps, root);
      if err == 0 {
        ClosedMatch(src, steps, old(kept), root);
      }
    }

    // btfgen_mark_type_match
    method MarkTypeMatch(id: Id, behind: bool, ghost steps: Node -> nat) returns (err: int)
      requires Valid() && NodesRanked(src, steps) && id < |src|
      modifies this`marked, this`kept, this`mems
      ensures Valid() && old(kept) <= kept && old(mems) <= mems
      ensures var r := NodeReach(src, steps, Node(id, behind));
        (err == 0 <==> AllKeepable(src, IdsOf(r)))
        && (err == 0 ==> kept == old(kept) + IdsOf(r) && mems == old(mems) + MemsOf(src, r))
      decreases steps(Node(id, behind)), 2
    {
      hide NodeReach, NodeReachAll, NodesRanked, IdsOf, MemsOf, Marks, AllKeepable;
      err := 0;
      NothingReached(src, steps);
      NoneKeepable(src);
      if id == 0 {
        return;
      }
      ReachParts(src, steps, Node(id, behind));
      MarkId(id);
      match src[id].body
      case Composite(_, _, _, ms) =>
        if !behind {
          err := MarkMembersMatch(id, steps);
        }
      case Mod(mod, to) =>
        if mod == TypeTag {
          err := -EINVAL;
        } else {
          err := MarkNodes([Node(to, behind)], steps, steps(Node(id, behind)));
        }
      case Typedef(to) =>
        err := MarkNodes([Node(to, behind)], steps, steps(Node(id, behind)));
      case Ptr(to) =>
        err := MarkNodes([Node(to, true)], steps, steps(Node(id, behind)));
      case Array(elem, index, _) =>
        err := MarkNodes([Node(elem, false), Node(index, false)], steps, steps(Node(id, behind)));
      case FuncProto(ret, ps) =>
        err := MarkNodes([Node(ret, false)] + ParamNodes(ps), steps, steps(Node(id, behind)));
      case Other(_, _) =>
        err := -EINVAL;
      case _ =>
    }

    // The calls btfgen_mark_type_match makes of itself: one type after the other, up to the first error.
    method MarkNodes(ns: seq<Node>, ghost steps: Node -> nat, ghost below: nat) returns (err: int)
      requires Valid() && NodesRanked(src, steps) && forall n | n in ns :: n.id < |src| && steps(n) < below
      modifies this`marked, this`kept, this`mems
      ensures Valid() && old(kept) <= kept && old(mems) <= mems
      ensures var r := NodeReachAll(src, steps, ns);
        (err == 0 <==> AllKeepable(src, IdsOf(r)))
        && (err == 0 ==> kept == old(kept) + IdsOf(r) && mems == old(mems) + MemsOf(src, r))
      decreases below, 0
    {
      hide NodeReach, NodeReachAll, NodesRanked, IdsOf, MemsOf, Marks, AllKeepable;
      err := 0;
      NothingReached(src, steps);
      NoneKeepable(src);
      assert ns[..0] == [];
      for i := 0 to |ns|
        invariant forall n | n in ns[..i] :: n.id < |src|
        invariant Valid() && err == 0 && old(kept) <= kept && old(mems) <= mems
        invariant AllKeepable(src, IdsOf(NodeReachAll(src, steps, ns[..i])))
        invariant kept == old(kept) + IdsOf(NodeReachAll(src, steps, ns[..i]))
        invariant mems == old(mems) + MemsOf(src, NodeReachAll(src, steps, ns[..i]))
      {
        assert ns[i] in ns && forall n | n in ns[..i] :: n in ns;
        assert ns[..i + 1] == ns[..i] + [ns[i]];
        SnocParts(src, steps, ns[..i], ns[i]);
        err := MarkTypeMatch(ns[i].id, ns[i].behind, steps);
        if err != 0 {
          if AllKeepable(src, IdsOf(NodeReachAll(src, steps, ns))) {
            PrefixKeepable(src, steps, ns, i + 1);
          }
          return;
        }
      }
      assert ns[..|ns|] == ns;
    }

    // The members of a composite and their types, one after the other, up to the first error.
    method MarkMembersMatch(id: Id, ghost steps: Node -> nat) returns (err: int)
      requires Valid() && NodesRanked(src, steps) && id < |src| && src[id].body.Composite?
      requires forall n | n in MemberNodes(src[id].body.members) :: n.id < |src| && steps(n) < steps(Node(id, false))
      modifies this`marked, this`kept, this`mems
      ensures Valid() && old(kept) <= kept && old(mems) <= mems
      ensures var r := NodeReachAll(src, steps, MemberNodes(src[id].body.members));
        (err == 0 <==> AllKeepable(src, IdsOf(r)))
        && (err == 0 ==>
              kept == old(kept) + IdsOf(r) && mems == old(mems) + OwnMems(src, Node(id, false)) + MemsOf(src, r))
      decreases steps(Node(id, false)), 1
    {
      hide NodeReach, NodeReachAll, NodesRanked, IdsOf, MemsOf, Marks, AllKeepable;
      err := 0;
      var ms := src[id].body.members;
      ghost var ns := MemberNodes(ms);
      ghost var own: set<(Id, nat)> := {};
      NothingReached(src, steps);
      NoneKeepable(src);
      assert ns[..0] == [];
      for i := 0 to |ms|
        invariant forall n | n in ns[..i] :: n.id < |src|
        invariant Valid() && err == 0 && old(kept) <= kept && old(mems) <= mems
        invariant AllKeepable(src, IdsOf(NodeReachAll(src, steps, ns[..i])))
        invariant kept == old(kept) + IdsOf(NodeReachAll(src, steps, ns[..i]))
        invariant own == (set k: nat | k < i :: (id, k))
        invariant mems == old(mems) + own + MemsOf(src, NodeReachAll(src, steps, ns[..i]))
      {
        assert ns[i] in ns && ns[i] == Node(ms[i].typ, false) && forall n | n in ns[..i] :: n in ns;
        assert ns[..i + 1] == ns[..i] + [ns[i]];
        SnocParts(src, steps, ns[..i], ns[i]);
        MarkMember(id, i);
        own := own + {(id, i)};
        err := MarkTypeMatch(ms[i].typ, false, steps);
        if err != 0 {
          if AllKeepable(src, IdsOf(NodeReachAll(src, steps, ns))) {
            PrefixKeepable(src, steps, ns, i + 1);
          }
          return;
        }
      }
      assert ns[..|ms|] == ns;
      assert own == OwnMems(src, Node(id, false));
    }

    // btfgen_mark_type
    method MarkType(id: Id, follow: bool, ghost rank: seq<nat>) returns (err: int)
      requires Valid() && Ranked(src, rank, follow) && id < |src|
      modifies this`marked, this`kept
      ensures Valid() && old(kept) <= kept <= old(kept) + Reach(src, rank, id, follow)
      ensures err == 0 <==> AllSupported(src, Reach(src, rank, id, follow))
      ensures err == 0 ==> kept == old(kept) + Reach(src, rank, id, follow)
      ensures err == 0 || err == -EINVAL
      decreases rank[id]
    {
      hide Reach, Marks;
      if id == 0 {
        ReachNone(src, rank, follow);
        return 0;
      }
      ReachIs(src, rank, id, follow);
      MarkId(id);
      match src[id].body
      case Ptr(to) =>
        if follow {
          err := MarkTargets([to], follow, rank, rank[id]);
        } else {
          err := 0;
        }
      case Mod(mod, to) =>
        if mod == TypeTag {
          return -EINVAL;
        }
        err := MarkTargets([to], follow, rank, rank[id]);
      case Typedef(to) =>
        err := MarkTargets([to], follow, rank, rank[id]);
      case Array(elem, index, _) =>
        err := MarkTargets([elem, index], follow, rank, rank[id]);
      case FuncProto(ret, ps) =>
        err := MarkTargets([ret] + ParamIds(ps), follow, rank, rank[id]);
      case Fwd(_) =>
        err := -EINVAL;
      case Other(_, _) =>
        err := -EINVAL;
      case _ =>
        err := 0;
    }

    // The calls btfgen_mark_type makes of itself: one type after the other, up to the first error.
    method MarkTargets(ids: seq<Id>, follow: bool, ghost rank: seq<nat>, ghost below: nat) returns (err: int)
      requires Valid() && Ranked(src, rank, follow) && forall x | x in ids :: x < |src| && rank[x] < below
      modifies this`marked, this`kept
      ensures Valid() && old(kept) <= kept <= old(kept) + ReachAll(src, rank, ids, follow)
      ensures err == 0 <==> AllSupported(src, ReachAll(src, rank, ids, follow))
      ensures err == 0 ==> kept == old(kept) + ReachAll(src, rank, ids, follow)
      ensures err == 0 || err == -EINVAL
      decreases below, 0
    {
      hide Reach;
      err := 0;
      for i := 0 to |ids|
        invariant forall x | x in ids[..i] :: x < |src|
        invariant Valid() && err == 0 && AllSupported(src, ReachAll(src, rank, ids[..i], follow))
        invariant kept == old(kept) + ReachAll(src, rank, ids[..i], follow)
      {
        assert ids[i] in ids && forall x | x in ids[..i] :: x in ids;
        assert ids[..i + 1] == ids[..i] + [ids[i]];
        ReachAllSnoc(src, rank, ids[..i], ids[i], follow);
        err := MarkType(ids[i], follow, rank);
        if err != 0 {
          assert ReachAll(src, rank, ids[..i + 1], follow) <= ReachAll(src, rank, ids, follow);
          return;
        }
      }
      assert ids[..|ids|] == ids;
    }
  }

  // With the ranks bounded by fuel, skipping ends.
  lemma {:induction false} SkipEnds(ts: seq<Type>, rank: seq<nat>, id: Id, fuel: nat)
    requires Ranked(ts, rank, false) && id < |ts| && rank[id] <= fuel
    ensures Skip(ts, id, fuel).Some?
    ensures Skipped(ts[id].body) ==> ts[id].body.to < |ts| && rank[ts[id].body.to] < rank[id]
    decreases rank[id]
  {
    if Skipped(ts[id].body) {
      assert Falls(ts, rank, false, id) && ts[id].body.to in Targets(ts[id].body, false);
      SkipEnds(ts, rank, ts[id].body.to, fuel - 1);
    }
  }

  lemma ReachNone(ts: seq<Type>, rank: seq<nat>, follow: bool)
    requires Ranked(ts, rank, follow) && 0 < |ts|
    ensures Reach(ts, rank, 0, follow) == {}
  {
  }
}
