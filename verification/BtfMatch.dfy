/** Whether a type matches another, as the relocation engine decides it, and what btfgen_mark_type_match
    comes to: types together with whether a pointer has been followed. */
module BtfMatch {
  import opened BtfTypes

  // --- bpf_core_names_match

  // X___Y at i, where X and Y are not underscores
  predicate FlavorSep(s: string, i: nat)
    requires i + 5 <= |s|
  {
    s[i] != '_' && s[i + 1] == s[i + 2] == s[i + 3] == '_' && s[i + 4] != '_'
  }

  function EssentialFrom(s: string, i: int): (n: nat)
    requires i + 5 <= |s|
    ensures n <= |s|
    decreases i
  {
    if i < 0 then |s| else if FlavorSep(s, i) then i + 1 else EssentialFrom(s, i - 1)
  }

  // The name without its flavor.
  function Essential(s: string): string {
    s[..EssentialFrom(s, |s| - 5)]
  }

  predicate NamesMatch(l: string, t: string) {
    if t == "" then l == "" else Essential(l) == Essential(t)
  }

  function Text(n: Name): string {
    if n.Str? then n.s else ""
  }

  // --- __bpf_core_types_match: positive, zero or an error

  const MATCH_DEPTH: nat := 32

  predicate EnumsMatch(size: nat, vs: seq<(string, int)>, size2: nat, vs2: seq<(string, int)>) {
    size == size2 && |vs| <= |vs2|
    && forall i | 0 <= i < |vs| :: exists j | 0 <= j < |vs2| :: NamesMatch(vs[i].0, vs2[j].0)
  }

  function Yes(b: bool): int {
    if b then 1 else 0
  }

  function TypesMatch(l: seq<Type>, lid: Id, t: seq<Type>, tid: Id, behind: bool, level: nat, fuel: nat): int
    decreases level, MATCH_DEPTH + 3, 0
  {
    if level == 0 then -EINVAL else MatchFrom(l, lid, t, tid, behind, level, MATCH_DEPTH, fuel)
  }

  // Depth more rounds of the loop.
  function MatchFrom(l: seq<Type>, lid: Id, t: seq<Type>, tid: Id, behind: bool, level: nat, depth: nat, fuel: nat): int
    requires level > 0 && depth <= MATCH_DEPTH
    decreases level, depth + 2, 0
  {
    var lc, tc := Skip(l, lid, fuel), Skip(t, tid, fuel);
    if depth == 0 || lc.None? || tc.None? then -EINVAL else
    var lt, tt := l[lc.value], t[tc.value];
    if !NamesMatch(Text(lt.name), Text(tt.name)) then 0 else
    match lt.body
    case Void => Yes(tt.body.Void?)
    case Fwd(u) => Yes((tt.body.Fwd? && tt.body.isUnion == u) || (behind && tt.body.Composite? && tt.body.isUnion == u))
    case Plain(k, size) =>
      Yes(tt.body.Plain?
        && ((k.Enum? && tt.body.kind.Enum? && EnumsMatch(size, k.values, tt.body.size, tt.body.kind.values))
            || (k.Int? && tt.body.kind.Int? && size == tt.body.size && k.signed == tt.body.kind.signed)))
    case Composite(u, _, _, ms) =>
      if behind then Yes((tt.body.Composite? && tt.body.isUnion == u) || (tt.body.Fwd? && tt.body.isUnion == u))
      else if !tt.body.Composite? || tt.body.isUnion != u || |ms| > |tt.body.members| then 0
      else MembersMatch(l, ms, t, tt.body.members, level, fuel)
    case Ptr(to) => if tt.body.Ptr? then MatchFrom(l, to, t, tt.body.to, true, level, depth - 1, fuel) else 0
    case Array(elem, _, n) =>
      if tt.body.Array? && tt.body.nelems == n then MatchFrom(l, elem, t, tt.body.elem, behind, level, depth - 1, fuel) else 0
    case FuncProto(ret, ps) =>
      if !tt.body.FuncProto? || |ps| != |tt.body.params| then 0 else
      var r := ParamsMatch(l, ps, t, tt.body.params, behind, level, fuel);
      if r <= 0 then r else MatchFrom(l, ret, t, tt.body.ret, behind, level, depth - 1, fuel)
    case _ => 0
  }

  function ParamsMatch(l: seq<Type>, ps: seq<Param>, t: seq<Type>, qs: seq<Param>, behind: bool, level: nat, fuel: nat): int
    requires level > 0 && |ps| == |qs|
    decreases level, 1, |ps|
  {
    if ps == [] then 1 else
    var r := TypesMatch(l, ps[0].typ, t, qs[0].typ, behind, level - 1, fuel);
    if r <= 0 then r else ParamsMatch(l, ps[1..], t, qs[1..], behind, level, fuel)
  }

  // bpf_core_composites_match: every member has a match.
  function MembersMatch(l: seq<Type>, ms: seq<Member>, t: seq<Type>, ns: seq<Member>, level: nat, fuel: nat): int
    requires level > 0
    decreases level, 1, |ms|
  {
    if ms == [] then 1 else
    var r := MemberMatch(l, ms[0], t, ns, level, fuel);
    if r <= 0 then r else MembersMatch(l, ms[1..], t, ns, level, fuel)
  }

  function MemberMatch(l: seq<Type>, m: Member, t: seq<Type>, ns: seq<Member>, level: nat, fuel: nat): int
    requires level > 0
    decreases level, 0, |ns|
  {
    if ns == [] then 0 else
    var r := if NamesMatch(Text(m.name), Text(ns[0].name))
      then TypesMatch(l, m.typ, t, ns[0].typ, false, level - 1, fuel) else 0;
    if r != 0 then r else MemberMatch(l, m, t, ns[1..], level, fuel)
  }

  // --- btfgen_mark_type_match

  // A type, and whether a pointer has been followed to it.
  datatype Node = Node(id: Id, behind: bool)

  function MemberNodes(ms: seq<Member>): (ns: seq<Node>)
    ensures |ns| == |ms| && forall k | 0 <= k < |ns| :: ns[k] == Node(ms[k].typ, false)
  {
    seq(|ms|, k requires 0 <= k < |ms| => Node(ms[k].typ, false))
  }

  function ParamNodes(ps: seq<Param>): (ns: seq<Node>)
    ensures |ns| == |ps| && forall k | 0 <= k < |ns| :: ns[k] == Node(ps[k].typ, false)
  {
    seq(|ps|, k requires 0 <= k < |ps| => Node(ps[k].typ, false))
  }

  // Where it goes on from a type: not into a composite behind a pointer.
  function Onward(b: Body, behind: bool): seq<Node> {
    match b
    case Ptr(to) => [Node(to, true)]
    case Mod(_, to) => [Node(to, behind)]
    case Typedef(to) => [Node(to, behind)]
    case Array(elem, index, _) => [Node(elem, false), Node(index, false)]
    case Composite(_, _, _, ms) => if behind then [] else MemberNodes(ms)
    case FuncProto(ret, ps) => [Node(ret, false)] + ParamNodes(ps)
    case _ => []
  }

  // What it accepts.
  predicate Keepable(b: Body) {
    !b.Other? && !(b.Mod? && b.mod == TypeTag)
  }

  // The nodes on a path, none of them void, each gone on to from the one before.
  ghost predicate NodePath(ts: seq<Type>, p: seq<Node>) {
    p != [] && (forall k | 0 <= k < |p| :: 0 < p[k].id < |ts|) && forall k | 0 <= k < |p| - 1 :: GoesOn(ts, p, k)
  }

  ghost predicate GoesOn(ts: seq<Type>, p: seq<Node>, k: nat)
    requires k + 1 < |p|
  {
    p[k].id < |ts| && p[k + 1] in Onward(ts[p[k].id].body, p[k].behind)
  }

  // A path leads from one node to the other.
  ghost predicate Comes(ts: seq<Type>, from: Node, to: Node) {
    exists p :: NodePath(ts, p) && p[0] == from && p[|p| - 1] == to
  }

  // What is marked for a match: the types come to, and the members of composites other than behind pointers.
  ghost function MatchIds(ts: seq<Type>, root: Id): set<Id> {
    set i: Id, b: bool | i < |ts| && Comes(ts, Node(root, false), Node(i, b)) :: i
  }

  ghost function MatchMems(ts: seq<Type>, root: Id): set<(Id, nat)> {
    set i: Id, k: nat | i < |ts| && ts[i].body.Composite? && k < |ts[i].body.members|
      && Comes(ts, Node(root, false), Node(i, false)) :: (i, k)
  }

  lemma ComesSelf(ts: seq<Type>, n: Node)
    requires 0 < n.id < |ts|
    ensures Comes(ts, n, n)
  {
    assert NodePath(ts, [n]);
  }

  lemma ComesOn(ts: seq<Type>, from: Node, n: Node, x: Node)
    requires Comes(ts, from, n) && n.id < |ts| && x in Onward(ts[n.id].body, n.behind) && 0 < x.id < |ts|
    ensures Comes(ts, from, x)
  {
    var p :| NodePath(ts, p) && p[0] == from && p[|p| - 1] == n;
    var q := p + [x];
    forall k | 0 <= k < |q| - 1 ensures GoesOn(ts, q, k) {
      if k < |p| - 1 { assert GoesOn(ts, p, k); }
    }
    assert NodePath(ts, q);
  }

  // --- the same by recursion, where the recursion ends

  // Going on ends: rank goes down.
  ghost predicate NodesRanked(ts: seq<Type>, rank: Node -> nat) {
    ValidBtf(ts) && forall n: Node | n.id < |ts| :: NodeFalls(ts, rank, n)
  }

  ghost predicate NodeFalls(ts: seq<Type>, rank: Node -> nat, n: Node)
    requires n.id < |ts|
  {
    forall x | x in Onward(ts[n.id].body, n.behind) :: x.id < |ts| && rank(x) < rank(n)
  }

  ghost function NodeReach(ts: seq<Type>, rank: Node -> nat, n: Node): set<Node>
    requires NodesRanked(ts, rank) && n.id < |ts|
    decreases rank(n)
  {
    if n.id == 0 then {} else
    assert NodeFalls(ts, rank, n);
    {n} + set t, x | t in Onward(ts[n.id].body, n.behind) && x in NodeReach(ts, rank, t) :: x
  }

  ghost function NodeReachAll(ts: seq<Type>, rank: Node -> nat, ns: seq<Node>): set<Node>
    requires NodesRanked(ts, rank) && forall n | n in ns :: n.id < |ts|
  {
    set t, x | t in ns && x in NodeReach(ts, rank, t) :: x
  }

  lemma NodeReachIs(ts: seq<Type>, rank: Node -> nat, n: Node)
    requires NodesRanked(ts, rank) && 0 < n.id < |ts|
    ensures forall x | x in Onward(ts[n.id].body, n.behind) :: x.id < |ts| && rank(x) < rank(n)
    ensures NodeReach(ts, rank, n) == {n} + NodeReachAll(ts, rank, Onward(ts[n.id].body, n.behind))
  {
    assert NodeFalls(ts, rank, n);
  }

  lemma NodeReachSnoc(ts: seq<Type>, rank: Node -> nat, ns: seq<Node>, n: Node)
    requires NodesRanked(ts, rank) && n.id < |ts| && forall x | x in ns :: x.id < |ts|
    ensures NodeReachAll(ts, rank, ns + [n]) == NodeReachAll(ts, rank, ns) + NodeReach(ts, rank, n)
  {
    hide NodeReach;
  }

  // The first step on the way.
  lemma NodeVia(ts: seq<Type>, rank: Node -> nat, n: Node, x: Node) returns (t: Node)
    requires NodesRanked(ts, rank) && n.id < |ts| && x in NodeReach(ts, rank, n)
    ensures 0 < n.id < |ts|
    ensures x == n
      || (t in Onward(ts[n.id].body, n.behind) && t.id < |ts| && rank(t) < rank(n) && x in NodeReach(ts, rank, t))
  {
    assert NodeFalls(ts, rank, n);
    if x == n {
      t := n;
    } else {
      t :| t in Onward(ts[n.id].body, n.behind) && x in NodeReach(ts, rank, t);
    }
  }

  lemma {:induction false} NodeReachPath(ts: seq<Type>, rank: Node -> nat, n: Node, x: Node) returns (p: seq<Node>)
    requires NodesRanked(ts, rank) && n.id < |ts| && x in NodeReach(ts, rank, n)
    ensures NodePath(ts, p) && p[0] == n && p[|p| - 1] == x
    decreases rank(n)
  {
    hide NodeReach, NodesRanked, Onward, GoesOn;
    var t := NodeVia(ts, rank, n, x);
    if x == n {
      p := [n];
    } else {
      var q := NodeReachPath(ts, rank, t, x);
      p := [n] + q;
      PathCons(ts, n, q);
    }
  }

  lemma PathCons(ts: seq<Type>, n: Node, q: seq<Node>)
    requires NodePath(ts, q) && 0 < n.id < |ts| && q[0] in Onward(ts[n.id].body, n.behind)
    ensures NodePath(ts, [n] + q)
  {
    hide Onward;
    var p := [n] + q;
    forall k | 0 <= k < |p| - 1 ensures GoesOn(ts, p, k) {
      if k > 0 { assert GoesOn(ts, q, k - 1); }
    }
  }

  lemma {:induction false} NodePathReaches(ts: seq<Type>, rank: Node -> nat, p: seq<Node>)
    requires NodesRanked(ts, rank) && NodePath(ts, p)
    ensures p[|p| - 1] in NodeReach(ts, rank, p[0])
    decreases |p|
  {
    if |p| > 1 {
      var q := p[1..];
      assert NodeFalls(ts, rank, p[0]);
      assert GoesOn(ts, p, 0);
      forall k | 0 <= k < |q| - 1 ensures GoesOn(ts, q, k) {
        assert GoesOn(ts, p, k + 1);
      }
      NodePathReaches(ts, rank, q);
    }
  }

  // What the recursion comes to is what paths lead to.
  lemma NodeReachIsPaths(ts: seq<Type>, rank: Node -> nat, n: Node, x: Node)
    requires NodesRanked(ts, rank) && n.id < |ts|
    ensures x in NodeReach(ts, rank, n) <==> Comes(ts, n, x)
  {
    if x in NodeReach(ts, rank, n) {
      var p := NodeReachPath(ts, rank, n, x);
    }
    if Comes(ts, n, x) {
      var p :| NodePath(ts, p) && p[0] == n && p[|p| - 1] == x;
      NodePathReaches(ts, rank, p);
    }
  }

  // --- as types and members

  ghost function IdsOf(ns: set<Node>): set<Id> {
    set n | n in ns :: n.id
  }

  ghost function MemsOf(ts: seq<Type>, ns: set<Node>): set<(Id, nat)> {
    set n: Node, k: nat | n in ns && !n.behind && n.id < |ts| && ts[n.id].body.Composite? && k < |ts[n.id].body.members|
      :: (n.id, k)
  }

  ghost predicate AllKeepable(ts: seq<Type>, ids: set<Id>) {
    forall i | i in ids && i < |ts| :: Keepable(ts[i].body)
  }

  // All members of a composite that is gone into.
  ghost function OwnMems(ts: seq<Type>, n: Node): set<(Id, nat)>
    requires n.id < |ts|
  {
    set k: nat | ts[n.id].body.Composite? && !n.behind && k < |ts[n.id].body.members| :: (n.id, k)
  }

  // What is reached from a node is the node and what is reached from where it goes on to.
  lemma ReachParts(ts: seq<Type>, rank: Node -> nat, n: Node)
    requires NodesRanked(ts, rank) && 0 < n.id < |ts|
    ensures forall x | x in Onward(ts[n.id].body, n.behind) :: x.id < |ts| && rank(x) < rank(n)
    ensures var r, rest := NodeReach(ts, rank, n), NodeReachAll(ts, rank, Onward(ts[n.id].body, n.behind));
      IdsOf(r) == {n.id} + IdsOf(rest) && MemsOf(ts, r) == OwnMems(ts, n) + MemsOf(ts, rest)
      && (AllKeepable(ts, IdsOf(r)) <==> Keepable(ts[n.id].body) && AllKeepable(ts, IdsOf(rest)))
  {
    hide NodeReach, NodeReachAll, NodesRanked, Onward;
    NodeReachIs(ts, rank, n);
    var rest := NodeReachAll(ts, rank, Onward(ts[n.id].body, n.behind));
    UnionParts(ts, {n}, rest);
    assert IdsOf({n}) == {n.id} by {
      assert n in {n};
    }
    assert MemsOf(ts, {n}) == OwnMems(ts, n);
  }

  lemma UnionParts(ts: seq<Type>, a: set<Node>, b: set<Node>)
    ensures IdsOf(a + b) == IdsOf(a) + IdsOf(b) && MemsOf(ts, a + b) == MemsOf(ts, a) + MemsOf(ts, b)
    ensures AllKeepable(ts, IdsOf(a + b)) <==> AllKeepable(ts, IdsOf(a)) && AllKeepable(ts, IdsOf(b))
  {
    assert IdsOf(a + b) == IdsOf(a) + IdsOf(b);
  }

  // One node after the other.
  lemma SnocParts(ts: seq<Type>, rank: Node -> nat, ns: seq<Node>, n: Node)
    requires NodesRanked(ts, rank) && n.id < |ts| && forall x | x in ns :: x.id < |ts|
    ensures var all, r, rest := NodeReachAll(ts, rank, ns + [n]), NodeReach(ts, rank, n), NodeReachAll(ts, rank, ns);
      IdsOf(all) == IdsOf(rest) + IdsOf(r) && MemsOf(ts, all) == MemsOf(ts, rest) + MemsOf(ts, r)
      && (AllKeepable(ts, IdsOf(all)) <==> AllKeepable(ts, IdsOf(rest)) && AllKeepable(ts, IdsOf(r)))
  {
    hide NodeReach, NodeReachAll, NodesRanked;
    NodeReachSnoc(ts, rank, ns, n);
    UnionParts(ts, NodeReachAll(ts, rank, ns), NodeReach(ts, rank, n));
  }

  // A failure on the way is one of the whole.
  lemma PrefixKeepable(ts: seq<Type>, rank: Node -> nat, ns: seq<Node>, i: nat)
    requires NodesRanked(ts, rank) && i <= |ns| && forall x | x in ns :: x.id < |ts|
    requires AllKeepable(ts, IdsOf(NodeReachAll(ts, rank, ns)))
    ensures (forall x | x in ns[..i] :: x.id < |ts|) && AllKeepable(ts, IdsOf(NodeReachAll(ts, rank, ns[..i])))
  {
    hide NodeReach;
    assert forall x | x in ns[..i] :: x in ns;
    assert NodeReachAll(ts, rank, ns[..i]) <= NodeReachAll(ts, rank, ns);
    forall x | x in IdsOf(NodeReachAll(ts, rank, ns[..i])) ensures x in IdsOf(NodeReachAll(ts, rank, ns)) {
      var n :| n in NodeReachAll(ts, rank, ns[..i]) && n.id == x;
      assert n in NodeReachAll(ts, rank, ns);
    }
  }

  lemma NothingReached(ts: seq<Type>, rank: Node -> nat)
    requires NodesRanked(ts, rank)
    ensures NodeReachAll(ts, rank, []) == {} && IdsOf({}) == {} && MemsOf(ts, {}) == {} && 0 < |ts|
    ensures forall b :: NodeReach(ts, rank, Node(0, b)) == {}
  {
  }

  lemma MatchIsReach(ts: seq<Type>, rank: Node -> nat, root: Id)
    requires NodesRanked(ts, rank) && root < |ts|
    ensures MatchIds(ts, root) == IdsOf(NodeReach(ts, rank, Node(root, false)))
    ensures MatchMems(ts, root) == MemsOf(ts, NodeReach(ts, rank, Node(root, false)))
  {
    hide NodeReach, NodesRanked, Comes;
    forall x: Node ensures x in NodeReach(ts, rank, Node(root, false)) <==> Comes(ts, Node(root, false), x) {
      NodeReachIsPaths(ts, rank, Node(root, false), x);
    }
    forall x: Node | Comes(ts, Node(root, false), x) ensures 0 < x.id < |ts| {
      ComesInRange(ts, Node(root, false), x);
    }
    forall e | e in MatchIds(ts, root) ensures e in IdsOf(NodeReach(ts, rank, Node(root, false))) {
      var b: bool :| Comes(ts, Node(root, false), Node(e, b));
      assert Node(e, b) in NodeReach(ts, rank, Node(root, false));
    }
    forall n | n in NodeReach(ts, rank, Node(root, false)) ensures n.id in MatchIds(ts, root) {
      assert Comes(ts, Node(root, false), Node(n.id, n.behind));
    }
    forall i: Id, k: nat | (i, k) in MatchMems(ts, root) ensures (i, k) in MemsOf(ts, NodeReach(ts, rank, Node(root, false))) {
      assert Node(i, false) in NodeReach(ts, rank, Node(root, false));
    }
    forall e | e in MemsOf(ts, NodeReach(ts, rank, Node(root, false))) ensures e in MatchMems(ts, root) {
      assert Node(e.0, false) in NodeReach(ts, rank, Node(root, false));
    }
  }

  lemma ComesInRange(ts: seq<Type>, n: Node, x: Node)
    requires Comes(ts, n, x)
    ensures 0 < x.id < |ts| && 0 < n.id < |ts|
  {
  }

  // --- when the recursion ends

  // From nothing a node goes on to, the way leads back to it.
  ghost predicate NoWayBack(ts: seq<Type>) {
    forall n: Node, x: Node | n.id < |ts| && x in Onward(ts[n.id].body, n.behind) :: !Comes(ts, x, n)
  }

  ghost function Reachable(ts: seq<Type>, n: Node): set<Node> {
    set i: Id, b: bool | i < |ts| && Comes(ts, n, Node(i, b)) :: Node(i, b)
  }

  lemma ReachableIs(ts: seq<Type>, n: Node, x: Node)
    ensures x in Reachable(ts, n) <==> Comes(ts, n, x)
  {
    if Comes(ts, n, x) {
      ComesInRange(ts, n, x);
      assert Comes(ts, n, Node(x.id, x.behind));
    }
  }

  lemma StepThenComes(ts: seq<Type>, n: Node, x: Node, y: Node)
    requires 0 < n.id < |ts| && x in Onward(ts[n.id].body, n.behind) && Comes(ts, x, y)
    ensures Comes(ts, n, y)
  {
    hide Onward;
    var q :| NodePath(ts, q) && q[0] == x && q[|q| - 1] == y;
    PathCons(ts, n, q);
    assert ([n] + q)[0] == n && ([n] + q)[|q|] == y;
  }

  lemma OnwardBelow(ts: seq<Type>, n: Node, x: Node)
    requires ValidBtf(ts) && n.id < |ts| && x in Onward(ts[n.id].body, n.behind)
    ensures x.id < |ts| && 0 < n.id
  {
    assert n.id > 0;
    assert ValidType(|ts|, ts[n.id]);
    OnwardRef(ts[n.id].body, n.behind, x);
  }

  lemma OnwardRef(b: Body, behind: bool, x: Node)
    requires x in Onward(b, behind)
    ensures x.id in Refs(b)
  {
    match b
    case Composite(_, _, _, ms) =>
      var k :| 0 <= k < |ms| && MemberNodes(ms)[k] == x;
      assert MemberIds(ms)[k] == x.id;
    case FuncProto(ret, ps) =>
      if x != Node(ret, false) {
        var k :| 0 <= k < |ps| && ParamNodes(ps)[k] == x;
        assert ParamIds(ps)[k] == x.id && x.id in ParamIds(ps);
      }
    case _ =>
  }

  // A step onward leaves less to come to.
  lemma ReachableFalls(ts: seq<Type>, n: Node, x: Node)
    requires ValidBtf(ts) && NoWayBack(ts) && n.id < |ts| && x in Onward(ts[n.id].body, n.behind)
    ensures x.id < |ts| && |Reachable(ts, x)| < |Reachable(ts, n)|
  {
    hide Comes, Onward, ValidBtf, Reachable;
    OnwardBelow(ts, n, x);
    forall y | y in Reachable(ts, x) ensures y in Reachable(ts, n) {
      ReachableIs(ts, x, y);
      StepThenComes(ts, n, x, y);
      ReachableIs(ts, n, y);
    }
    ComesSelf(ts, n);
    ReachableIs(ts, n, n);
    ReachableIs(ts, x, n);
    SmallerSet(Reachable(ts, x), Reachable(ts, n), n);
  }

  lemma SmallerSet(a: set<Node>, b: set<Node>, n: Node)
    requires a <= b && n in b && n !in a
    ensures |a| < |b|
  {
    assert b == a + (b - a) && n in b - a;
  }

  lemma {:induction false} RankFalls(ts: seq<Type>, rank: Node -> nat, p: seq<Node>)
    requires NodesRanked(ts, rank) && NodePath(ts, p)
    ensures rank(p[|p| - 1]) <= rank(p[0])
    decreases |p|
  {
    if |p| > 1 {
      var q := p[1..];
      assert NodeFalls(ts, rank, p[0]) && GoesOn(ts, p, 0);
      forall k | 0 <= k < |q| - 1 ensures GoesOn(ts, q, k) {
        assert GoesOn(ts, p, k + 1);
      }
      RankFalls(ts, rank, q);
    }
  }

  // btfgen_mark_type_match ends, wherever it starts, if and only if no way leads back to where it has been.
  lemma MatchEnds(ts: seq<Type>)
    requires ValidBtf(ts)
    ensures (exists rank :: NodesRanked(ts, rank)) <==> NoWayBack(ts)
  {
    if rank :| NodesRanked(ts, rank) {
      forall n: Node, x: Node | n.id < |ts| && x in Onward(ts[n.id].body, n.behind) ensures !Comes(ts, x, n) {
        assert NodeFalls(ts, rank, n);
        if p :| NodePath(ts, p) && p[0] == x && p[|p| - 1] == n {
          RankFalls(ts, rank, p);
        }
      }
    }
    if NoWayBack(ts) {
      var rank: Node -> nat := n => |Reachable(ts, n)|;
      hide Reachable, Onward, NoWayBack;
      forall n: Node | n.id < |ts| ensures NodeFalls(ts, rank, n) {
        forall x | x in Onward(ts[n.id].body, n.behind) ensures x.id < |ts| && rank(x) < rank(n) {
          ReachableFalls(ts, n, x);
        }
      }
      assert NodesRanked(ts, rank);
    }
  }

  // struct s { struct s (*p)[1]; }
  const SELF: seq<Type> := [
    Type(Str(""), Void),
    Type(Str("s"), Composite(false, 8, false, [Member(Str("p"), 2, 0)])),
    Type(Str(""), Ptr(3)),
    Type(Str(""), Array(1, 4, 1)),
    Type(Str("int"), Plain(Int(true, 0, 32), 4))]

  // It does not end on a structure that holds a pointer to an array of itself.
  lemma NeverEnds()
    ensures ValidBtf(SELF) && !NoWayBack(SELF)
  {
    forall i | 0 < i < |SELF| ensures ValidType(|SELF|, SELF[i]) {
      assert MemberIds([Member(Str("p"), 2, 0)]) == [2];
    }
    var n, p := Node(1, false), [Node(2, false), Node(3, true), Node(1, false)];
    assert Onward(SELF[1].body, false)[0] == p[0];
    assert Onward(SELF[2].body, false)[0] == p[1];
    assert Onward(SELF[3].body, true)[0] == p[2];
    assert GoesOn(SELF, p, 0) && GoesOn(SELF, p, 1);
    assert NodePath(SELF, p);
    assert Comes(SELF, p[0], n);
  }
}
