/** The drawn edges against the instruction step relation: when every run of a function is a walk over
    the edges of its blocks, and when every edge is taken by some step. */
module CfgSteps {
  import opened CfgSpec

  // What an instruction does to the flow of control, by its opcode (RFC 9669, section 4.3): the class
  // is in the lower three bits, the operation of a jump in the upper four.
  datatype Flow = Onward | CallFlow | ExitFlow | Goto(offset: int) | Branch(offset: int)

  function FlowOf(x: Insn): Flow {
    if x.code % 8 != 5 && x.code % 8 != 6 then Onward else
    match x.code / 16
    case 0 => Goto(if x.code % 8 == 6 then x.imm else x.off)
    case 8 => CallFlow
    case 9 => ExitFlow
    case _ => Branch(x.off)
  }

  // One step inside a function: a call returns to the next instruction, and the second slot of a
  // 64-bit load falls through.
  predicate Step(prog: seq<Insn>, i: int, j: int)
    requires 0 <= i < |prog|
  {
    match FlowOf(prog[i])
    case Onward => j == i + 1
    case CallFlow => j == i + 1
    case ExitFlow => false
    case Goto(offset) => j == i + 1 + offset
    case Branch(offset) => j == i + 1 || j == i + 1 + offset
  }

  // The builder's tests are about that flow; it takes the destination of every jump from off.
  lemma Decoded(x: Insn)
    ensures IsJmp(x) <==> !FlowOf(x).Onward?
    ensures Leaps(x) <==> FlowOf(x).Goto? || FlowOf(x).Branch?
    ensures Branches(x) <==> FlowOf(x).Branch?
    ensures IsJmp(x) ==>
      (Op(x) == BPF_CALL <==> FlowOf(x).CallFlow?) && (Op(x) == BPF_EXIT <==> FlowOf(x).ExitFlow?)
      && (Op(x) == BPF_JA <==> FlowOf(x).Goto?)
    ensures FlowOf(x).Branch? ==> FlowOf(x).offset == x.off
    ensures FlowOf(x).Goto? ==> FlowOf(x).offset == if Class(x) == BPF_JMP32 then x.imm else x.off
    ensures CallsFunc(x) <==> x.code == 0x85 && x.src == 1
  {
  }

  // A function as the kernel's verifier accepts it: jumps by offset stay inside, and the last
  // instruction does not branch.
  predicate SelfContained(prog: seq<Insn>, start: int, end: int) {
    0 <= start <= end < |prog|
    && (forall i | start <= i <= end && Leaps(prog[i]) :: start <= Dest(prog, i) <= end)
    && !Branches(prog[end])
  }

  // Position i is the last of a block: the function ends there, or a jump goes right behind it.
  predicate Cut(prog: seq<Insn>, start: int, end: int, i: int)
    requires 0 <= start <= end < |prog|
  {
    i == end || IsTarget(prog, start, end + 1, i + 1)
  }

  function HeadsOf(prog: seq<Insn>, start: int, end: int): seq<int>
    requires 0 <= start <= end < |prog|
  {
    Heads(prog, start, end + 1)
  }

  lemma HeadsInside(prog: seq<Insn>, start: int, end: int)
    requires SelfContained(prog, start, end)
    ensures var h := HeadsOf(prog, start, end);
      h != [] && Sorted(h) && h[0] == start && (forall y | y in h :: start <= y <= end)
      && forall k | 0 <= k < |h| :: h[k] <= Last(h, k, end) <= end
  {
    var h := HeadsOf(prog, start, end);
    HeadsAre(prog, start, end + 1);
    forall y | y in h ensures start <= y <= end {
      assert y == start || IsTarget(prog, start, end + 1, y);
    }
    assert start in h && h[0] in h;
    forall k | 0 <= k < |h| ensures h[k] <= Last(h, k, end) <= end {
      assert h[k] in h;
      if k + 1 < |h| { assert h[k + 1] in h; }
    }
  }

  lemma HeadIff(prog: seq<Insn>, start: int, end: int, y: int)
    requires SelfContained(prog, start, end)
    ensures y in HeadsOf(prog, start, end) <==> y == start || IsTarget(prog, start, end + 1, y)
  {
    HeadsAre(prog, start, end + 1);
  }

  // No head lies inside a block.
  lemma NotAHead(h: seq<int>, a: nat, end: int, y: int)
    requires Sorted(h) && a < |h| && h[a] < y <= Last(h, a, end) && forall x | x in h :: x <= end
    ensures y !in h
  {
    forall b | 0 <= b < |h| ensures h[b] != y {
      assert b > a + 1 ==> h[a + 1] < h[b];
    }
  }

  // The block of the next position.
  lemma NextBlock(h: seq<int>, end: int, i: int, a: nat)
    requires Sorted(h) && a < |h| && h[0] <= i < end && h[a] <= i <= Last(h, a, end)
    requires forall x | x in h :: x <= end
    ensures if i < Last(h, a, end) then i + 1 !in h && PartOf(h, i + 1) == a
            else a + 1 < |h| && h[a + 1] == i + 1 && PartOf(h, i + 1) == a + 1
  {
    hide PartOf;
    PartsCover(h, end, i + 1);
    if i < Last(h, a, end) {
      assert h[a] <= i + 1 <= Last(h, a, end);
      NotAHead(h, a, end, i + 1);
    } else {
      assert h[a + 1] == i + 1 && h[a + 1] in h;
      assert h[a + 1] <= i + 1 <= Last(h, a + 1, end);
    }
  }

  // The block of a position and where it ends.
  lemma BlockFacts(prog: seq<Insn>, start: int, end: int, i: int)
    requires SelfContained(prog, start, end) && start <= i <= end
    ensures var h := HeadsOf(prog, start, end); var a := PartOf(h, i);
      0 <= a < |h| && h[a] <= i <= Last(h, a, end) <= end
      && (i == Last(h, a, end) <==> Cut(prog, start, end, i))
      && (i < Last(h, a, end) ==> PartOf(h, i + 1) == a)
      && (i == Last(h, a, end) < end ==> a + 1 < |h| && h[a + 1] == i + 1 && PartOf(h, i + 1) == a + 1)
  {
    hide Heads, HeadsOf, IsTarget, PartOf, Op, Class, Sorted, Leaps, Branches, Dest;
    var h := HeadsOf(prog, start, end);
    HeadsInside(prog, start, end);
    PartsCover(h, end, i);
    var a := PartOf(h, i);
    assert h[a] <= i <= Last(h, a, end);
    if i < end {
      NextBlock(h, end, i, a);
      if i == Last(h, a, end) { assert h[a + 1] in h; }
      HeadIff(prog, start, end, i + 1);
    }
  }

  // The block that starts at a head.
  lemma HeadBlock(prog: seq<Insn>, start: int, end: int, k: nat)
    requires SelfContained(prog, start, end) && k < |HeadsOf(prog, start, end)|
    ensures var h := HeadsOf(prog, start, end); PartOf(h, h[k]) == k
  {
    var h := HeadsOf(prog, start, end);
    HeadsInside(prog, start, end);
    assert h[k] in h;
    PartsCover(h, end, h[k]);
    assert h[k] <= h[k] <= Last(h, k, end);
  }

  // Block a has an edge to block b.
  predicate Drawn(prog: seq<Insn>, h: seq<int>, end: int, a: int, b: int)
    requires 0 <= a < |h| && 0 <= Last(h, a, end) < |prog|
  {
    exists arc | arc in Arcs(prog, h, end, a) :: arc.dst.Block? && arc.dst.k == b
  }

  // The destinations of the edges of a block.
  lemma DrawnIs(prog: seq<Insn>, h: seq<int>, end: int, a: nat, b: int)
    requires a < |h| && 0 <= Last(h, a, end) < |prog|
    ensures var i := Last(h, a, end); var x := prog[i];
      var next := NextNode(h, a) == Block(a + 1) && b == a + 1;
      var jump := FindHead(h, Dest(prog, i)).Block? && FindHead(h, Dest(prog, i)).k == b;
      Drawn(prog, h, end, a, b) <==>
        if !IsJmp(x) || Op(x) == BPF_EXIT then next else if Op(x) == BPF_JA then jump else next || jump
  {
    hide FindHead;
    var i := Last(h, a, end);
    var x, arcs := prog[i], Arcs(prog, h, end, a);
    if !IsJmp(x) || Op(x) == BPF_EXIT || Op(x) == BPF_JA {
      assert arcs == [arcs[0]];
    } else {
      assert arcs == [arcs[0], arcs[1]];
    }
  }

  // A step from i to j agrees with the graph: from the last instruction of a block along an edge to
  // the first one of another, or on to the next instruction of the same block.
  predicate Agrees(prog: seq<Insn>, start: int, end: int, i: int, j: int)
    requires SelfContained(prog, start, end) && start <= i <= end && start <= j <= end
  {
    var h := HeadsOf(prog, start, end);
    var a, b := PartOf(h, i), PartOf(h, j);
    0 <= a < |h| && 0 <= b < |h| && 0 <= Last(h, a, end) < |prog|
    && if i == Last(h, a, end) then j == h[b] && Drawn(prog, h, end, a, b) else a == b && j == i + 1
  }

  ghost predicate AllAgree(prog: seq<Insn>, start: int, end: int)
    requires SelfContained(prog, start, end)
  {
    forall i, j | start <= i <= end && start <= j <= end && Step(prog, i, j) :: Agrees(prog, start, end, i, j)
  }

  // What has to hold of the unconditional jump at i: the next instruction starts a block (or the
  // function ends), and a destination in imm is the one in off.  A 32-bit class JA out of the
  // function takes no step in it; one that goes nowhere but on may stand inside a block.
  predicate JaFits(prog: seq<Insn>, start: int, end: int, i: int)
    requires 0 <= start <= i <= end < |prog|
  {
    var x := prog[i];
    if Class(x) == BPF_JMP then Cut(prog, start, end, i)
    else
      !(start <= i + 1 + x.imm <= end) || (if Cut(prog, start, end, i) then x.imm == x.off else x.imm == 0)
  }

  predicate JasFit(prog: seq<Insn>, start: int, end: int)
    requires 0 <= start <= end < |prog|
  {
    forall i | start <= i <= end && Leaps(prog[i]) && !Branches(prog[i]) :: JaFits(prog, start, end, i)
  }

  // A destination by offset is the head of a block, and the edge to it is found.
  lemma DestBlock(prog: seq<Insn>, start: int, end: int, i: int)
    requires SelfContained(prog, start, end) && start <= i <= end && Leaps(prog[i])
    ensures var h, d := HeadsOf(prog, start, end), Dest(prog, i);
      d in h && 0 <= PartOf(h, d) < |h| && h[PartOf(h, d)] == d && FindHead(h, d) == Block(PartOf(h, d))
  {
    var h, d := HeadsOf(prog, start, end), Dest(prog, i);
    HeadIff(prog, start, end, d);
    assert IsTarget(prog, start, end + 1, d);
    var n := FindHead(h, d);
    HeadBlock(prog, start, end, n.k);
  }

  lemma CallOrPlainAgrees(prog: seq<Insn>, start: int, end: int, i: int, j: int)
    requires SelfContained(prog, start, end) && start <= i <= end && start <= j <= end
    requires !Leaps(prog[i]) && Step(prog, i, j)
    ensures Agrees(prog, start, end, i, j)
  {
    hide FlowOf, Op, Class;
    Decoded(prog[i]);
    var h := HeadsOf(prog, start, end);
    BlockFacts(prog, start, end, i);
    var a := PartOf(h, i);
    if i == Last(h, a, end) {
      assert Arcs(prog, h, end, a)[0] == Arc(Block(a + 1), Fallthrough);
    }
  }

  lemma BranchAgrees(prog: seq<Insn>, start: int, end: int, i: int, j: int)
    requires SelfContained(prog, start, end) && start <= i <= end && start <= j <= end
    requires Branches(prog[i]) && Step(prog, i, j)
    ensures Agrees(prog, start, end, i, j)
  {
    hide FlowOf, Op, Class, Heads, PartOf, Sorted, Arcs, FindHead, NextNode, Drawn;
    Decoded(prog[i]);
    var h := HeadsOf(prog, start, end);
    BlockFacts(prog, start, end, i);
    BlockFacts(prog, start, end, j);
    var a := PartOf(h, i);
    assert IsTarget(prog, start, end + 1, i + 1);
    DestBlock(prog, start, end, i);
    NextIs(h, a);
    DrawnIs(prog, h, end, a, PartOf(h, j));
  }

  lemma NextIs(h: seq<int>, a: nat)
    ensures a + 1 < |h| ==> NextNode(h, a) == Block(a + 1)
  {
  }

  lemma JaAgrees(prog: seq<Insn>, start: int, end: int, i: int, j: int)
    requires SelfContained(prog, start, end) && start <= i <= end && start <= j <= end
    requires Leaps(prog[i]) && !Branches(prog[i]) && Step(prog, i, j)
    ensures Agrees(prog, start, end, i, j) <==> JaFits(prog, start, end, i)
  {
    hide Heads, Drawn, FindHead, FlowOf, Op, Class;
    Decoded(prog[i]);
    var h := HeadsOf(prog, start, end);
    BlockFacts(prog, start, end, i);
    BlockFacts(prog, start, end, j);
    var a, b, d := PartOf(h, i), PartOf(h, j), Dest(prog, i);
    DestBlock(prog, start, end, i);
    DrawnIs(prog, h, end, a, b);
    assert IsTarget(prog, start, end + 1, d);
    hide IsTarget;
    if Cut(prog, start, end, i) {
      assert Agrees(prog, start, end, i, j) <==> j == d;
    } else {
      assert Agrees(prog, start, end, i, j) <==> j == i + 1;
    }
  }

  // Every step agrees with the graph if and only if the unconditional jumps fit.
  lemma StepsAgree(prog: seq<Insn>, start: int, end: int)
    requires SelfContained(prog, start, end)
    ensures AllAgree(prog, start, end) <==> JasFit(prog, start, end)
  {
    hide Agrees, JaFits, Heads, Arcs;
    if JasFit(prog, start, end) {
      forall i, j | start <= i <= end && start <= j <= end && Step(prog, i, j) ensures Agrees(prog, start, end, i, j) {
        if !Leaps(prog[i]) {
          CallOrPlainAgrees(prog, start, end, i, j);
        } else if Branches(prog[i]) {
          BranchAgrees(prog, start, end, i, j);
        } else {
          JaAgrees(prog, start, end, i, j);
        }
      }
    }
    if AllAgree(prog, start, end) {
      forall i | start <= i <= end && Leaps(prog[i]) && !Branches(prog[i]) ensures JaFits(prog, start, end, i) {
        var x := prog[i];
        var j := i + 1 + (if Class(x) == BPF_JMP32 then x.imm else x.off);
        Decoded(x);
        if start <= j <= end {
          assert Agrees(prog, start, end, i, j);
          JaAgrees(prog, start, end, i, j);
        } else {
          JaAway(prog, start, end, i);
        }
      }
    }
  }

  lemma JaAway(prog: seq<Insn>, start: int, end: int, i: int)
    requires SelfContained(prog, start, end) && start <= i <= end && Leaps(prog[i]) && !Branches(prog[i])
    requires var j := i + 1 + (if Class(prog[i]) == BPF_JMP32 then prog[i].imm else prog[i].off); !(start <= j <= end)
    ensures JaFits(prog, start, end, i)
  {
  }

  // --- what the edges of a block mean

  // A fall-through edge leads to the block of the next instruction, or to the exit behind the last
  // one; a jump edge leads to the block that starts at the destination in off, if there is one.
  ghost predicate EdgeMeans(prog: seq<Insn>, start: int, end: int, i: int, arc: Arc)
    requires SelfContained(prog, start, end) && start <= i <= end
  {
    var h := HeadsOf(prog, start, end);
    if arc.flag == Fallthrough then
      if i == end then arc.dst == Exit else arc.dst.Block? && arc.dst.k < |h| && h[arc.dst.k] == i + 1
    else if i + 1 + prog[i].off in h then
      arc.dst.Block? && arc.dst.k < |h| && h[arc.dst.k] == i + 1 + prog[i].off
    else arc.dst == Missing
  }

  // The edges in terms of the flow.
  lemma ArcsBy(prog: seq<Insn>, h: seq<int>, end: int, a: nat)
    requires a < |h| && 0 <= Last(h, a, end) < |prog|
    ensures var i := Last(h, a, end);
      var next, jump := Arc(NextNode(h, a), Fallthrough), Arc(FindHead(h, Dest(prog, i)), Jump);
      Arcs(prog, h, end, a) ==
        if FlowOf(prog[i]).Onward? || FlowOf(prog[i]).ExitFlow? then [next]
        else if FlowOf(prog[i]).Goto? then [jump] else [next, jump]
  {
    hide FlowOf, Op, Class, FindHead, NextNode;
    Decoded(prog[Last(h, a, end)]);
  }

  lemma NextMeans(prog: seq<Insn>, start: int, end: int, a: nat)
    requires SelfContained(prog, start, end) && a < |HeadsOf(prog, start, end)|
    ensures var h := HeadsOf(prog, start, end); var i := Last(h, a, end);
      start <= i <= end && EdgeMeans(prog, start, end, i, Arc(NextNode(h, a), Fallthrough))
  {
    hide Heads, FlowOf, IsTarget, Cut;
    TailPlace(prog, start, end, a);
  }

  lemma JumpMeans(prog: seq<Insn>, start: int, end: int, i: int)
    requires SelfContained(prog, start, end) && start <= i <= end
    ensures EdgeMeans(prog, start, end, i, Arc(FindHead(HeadsOf(prog, start, end), Dest(prog, i)), Jump))
  {
    hide Heads;
  }

  // The edges of a block: none falls through behind an unconditional jump, none jumps from an
  // instruction that is no jump or ends the function, and no two have the same flag.
  lemma EdgesMean(prog: seq<Insn>, start: int, end: int, a: nat)
    requires SelfContained(prog, start, end) && a < |HeadsOf(prog, start, end)|
    ensures var h := HeadsOf(prog, start, end); var i := Last(h, a, end);
      start <= i <= end
      && (forall arc | arc in Arcs(prog, h, end, a) :: EdgeMeans(prog, start, end, i, arc))
      && ((exists arc | arc in Arcs(prog, h, end, a) :: arc.flag == Fallthrough) <==> !FlowOf(prog[i]).Goto?)
      && ((exists arc | arc in Arcs(prog, h, end, a) :: arc.flag == Jump)
          <==> !FlowOf(prog[i]).Onward? && !FlowOf(prog[i]).ExitFlow?)
      && forall x, y | 0 <= x < y < |Arcs(prog, h, end, a)| ::
           Arcs(prog, h, end, a)[x].flag != Arcs(prog, h, end, a)[y].flag
  {
    hide Heads, HeadsOf, FindHead, FlowOf, Arcs, NextNode, EdgeMeans, SelfContained;
    InFunction(prog, start, end);
    var h := HeadsOf(prog, start, end);
    NextMeans(prog, start, end, a);
    var i := Last(h, a, end);
    JumpMeans(prog, start, end, i);
    ArcsBy(prog, h, end, a);
    var next, jump := Arc(NextNode(h, a), Fallthrough), Arc(FindHead(h, Dest(prog, i)), Jump);
    assert next in [next] && jump in [jump] && next in [next, jump] && jump in [next, jump];
  }

  lemma InFunction(prog: seq<Insn>, start: int, end: int)
    requires SelfContained(prog, start, end)
    ensures 0 <= start <= end < |prog|
  {
  }

  // A block has an edge to the exit if and only if it is the function's last one and does not end in
  // an unconditional jump.
  lemma ExitEdge(prog: seq<Insn>, h: seq<int>, end: int, a: nat)
    requires a < |h| && 0 <= Last(h, a, end) < |prog|
    ensures (exists arc | arc in Arcs(prog, h, end, a) :: arc.dst == Exit)
      <==> a == |h| - 1 && !FlowOf(prog[Last(h, a, end)]).Goto?
  {
    hide FlowOf, FindHead;
    Decoded(prog[Last(h, a, end)]);
    var arcs := Arcs(prog, h, end, a);
    assert arcs[0] in arcs && forall arc | arc in arcs :: arc == arcs[0] || arc == arcs[|arcs| - 1];
  }

  // --- whole runs

  predicate Run(prog: seq<Insn>, start: int, end: int, p: seq<int>) {
    0 <= start <= end < |prog| && p != [] && (forall i | 0 <= i < |p| :: start <= p[i] <= end)
    && forall i | 0 <= i < |p| - 1 :: StepsTo(prog, p, i)
  }

  predicate StepsTo(prog: seq<Insn>, p: seq<int>, i: nat)
    requires i + 1 < |p|
  {
    0 <= p[i] < |prog| && Step(prog, p[i], p[i + 1])
  }

  // The blocks a run goes through: one more whenever the last instruction of a block is left.
  function Trace(h: seq<int>, end: int, p: seq<int>): seq<int>
    requires p != []
  {
    var n := |p| - 1;
    if n == 0 then [PartOf(h, p[0])] else
    var a := PartOf(h, p[n - 1]);
    Trace(h, end, p[..n])
    + (if 0 <= a < |h| && p[n - 1] == Last(h, a, end) then [PartOf(h, p[n])] else [])
  }

  // Every block of the list has an edge to the next.
  predicate Walk(prog: seq<Insn>, h: seq<int>, end: int, bs: seq<int>) {
    bs != [] && (forall i | 0 <= i < |bs| :: 0 <= bs[i] < |h| && 0 <= Last(h, bs[i], end) < |prog|)
    && forall i | 0 <= i < |bs| - 1 :: Linked(prog, h, end, bs, i)
  }

  predicate Linked(prog: seq<Insn>, h: seq<int>, end: int, bs: seq<int>, i: nat)
    requires i + 1 < |bs|
  {
    0 <= bs[i] < |h| && 0 <= Last(h, bs[i], end) < |prog| && Drawn(prog, h, end, bs[i], bs[i + 1])
  }

  lemma WalkSnoc(prog: seq<Insn>, h: seq<int>, end: int, bs: seq<int>, b: int)
    requires Walk(prog, h, end, bs) && 0 <= b < |h| && 0 <= Last(h, b, end) < |prog|
    requires Drawn(prog, h, end, bs[|bs| - 1], b)
    ensures Walk(prog, h, end, bs + [b])
  {
    hide Drawn;
    var c := bs + [b];
    forall i | 0 <= i < |c| - 1 ensures Linked(prog, h, end, c, i) {
      if i < |bs| - 1 { assert Linked(prog, h, end, bs, i); }
    }
  }

  // A run of any length, from anywhere in the function, is a walk over drawn edges that ends in the
  // block of its last instruction.
  lemma {:induction false} RunsAreWalks(prog: seq<Insn>, start: int, end: int, p: seq<int>)
    requires SelfContained(prog, start, end) && JasFit(prog, start, end) && Run(prog, start, end, p)
    ensures var h := HeadsOf(prog, start, end); var bs := Trace(h, end, p);
      Walk(prog, h, end, bs) && bs[0] == PartOf(h, p[0]) && bs[|bs| - 1] == PartOf(h, p[|p| - 1])
    decreases |p|
  {
    hide Drawn, Heads, Step, JasFit, Arcs, Walk, Cut, PartOf;
    var h, n := HeadsOf(prog, start, end), |p| - 1;
    assert start <= p[n] <= end;
    BlockFacts(prog, start, end, p[n]);
    if n == 0 {
      WalkOne(prog, h, end, PartOf(h, p[0]));
    } else {
      var q := p[..n];
      forall i | 0 <= i < |q| - 1 ensures StepsTo(prog, q, i) {
        assert StepsTo(prog, p, i);
      }
      RunsAreWalks(prog, start, end, q);
      assert StepsTo(prog, p, n - 1);
      StepsAgree(prog, start, end);
      assert Agrees(prog, start, end, p[n - 1], p[n]);
      BlockFacts(prog, start, end, p[n - 1]);
      var a := PartOf(h, p[n - 1]);
      WalkFacts(prog, h, end, Trace(h, end, q));
      if p[n - 1] == Last(h, a, end) {
        WalkSnoc(prog, h, end, Trace(h, end, q), PartOf(h, p[n]));
      } else {
        assert Trace(h, end, p) == Trace(h, end, q) + [];
        assert Trace(h, end, q) + [] == Trace(h, end, q);
      }
    }
  }

  lemma WalkOne(prog: seq<Insn>, h: seq<int>, end: int, b: int)
    requires 0 <= b < |h| && 0 <= Last(h, b, end) < |prog|
    ensures Walk(prog, h, end, [b])
  {
  }

  lemma WalkFacts(prog: seq<Insn>, h: seq<int>, end: int, bs: seq<int>)
    requires Walk(prog, h, end, bs)
    ensures bs != [] && 0 <= bs[|bs| - 1] < |h| && 0 <= Last(h, bs[|bs| - 1], end) < |prog|
  {
  }

  // --- every edge is taken

  ghost predicate AllTaken(prog: seq<Insn>, start: int, end: int)
    requires SelfContained(prog, start, end)
  {
    var h := HeadsOf(prog, start, end);
    forall a, b | 0 <= a < |h| && 0 <= b < |h| && 0 <= Last(h, a, end) < |prog| && Drawn(prog, h, end, a, b) ::
      Step(prog, Last(h, a, end), h[b])
  }

  // What has to hold of the last instruction of a block: an EXIT ends the function, a call there has
  // offset 0 unless nothing starts at its offset, and a 32-bit class JA has equal off and imm.
  predicate TailFits(prog: seq<Insn>, start: int, end: int, i: int)
    requires 0 <= start <= i <= end < |prog|
  {
    var x := prog[i];
    IsJmp(x) ==>
      if Op(x) == BPF_EXIT then i == end
      else if Op(x) == BPF_CALL then x.off == 0 || !(Dest(prog, i) == start || IsTarget(prog, start, end + 1, Dest(prog, i)))
      else if Op(x) == BPF_JA then Class(x) == BPF_JMP32 ==> x.imm == x.off
      else true
  }

  predicate TailsFit(prog: seq<Insn>, start: int, end: int)
    requires 0 <= start <= end < |prog|
  {
    forall i | start <= i <= end && Cut(prog, start, end, i) :: TailFits(prog, start, end, i)
  }

  // The last instruction of block a and what is drawn behind it.
  lemma TailPlace(prog: seq<Insn>, start: int, end: int, a: nat)
    requires SelfContained(prog, start, end) && a < |HeadsOf(prog, start, end)|
    ensures var h := HeadsOf(prog, start, end); var i := Last(h, a, end);
      start <= i <= end && Cut(prog, start, end, i)
      && NextNode(h, a) == (if i < end then Block(a + 1) else Exit) && (i < end ==> a + 1 < |h| && h[a + 1] == i + 1)
  {
    hide Heads, IsTarget, PartOf, Sorted;
    var h := HeadsOf(prog, start, end);
    HeadsInside(prog, start, end);
    var i := Last(h, a, end);
    assert h[a] in h;
    PartsCover(h, end, i);
    assert h[a] <= i <= Last(h, a, end);
    BlockFacts(prog, start, end, i);
    if a + 1 < |h| { assert h[a + 1] in h; }
  }

  // The edges of one block.
  lemma TailTaken(prog: seq<Insn>, start: int, end: int, a: nat)
    requires SelfContained(prog, start, end) && a < |HeadsOf(prog, start, end)|
    requires 0 <= Last(HeadsOf(prog, start, end), a, end) < |prog|
    ensures var h := HeadsOf(prog, start, end); var i := Last(h, a, end);
      start <= i <= end
      && (TailFits(prog, start, end, i) <==> forall b | 0 <= b < |h| && Drawn(prog, h, end, a, b) :: Step(prog, i, h[b]))
  {
    hide Heads, Drawn, FindHead, TailFits, Step, IsTarget, PartOf, Sorted, NextNode, Cut;
    var h := HeadsOf(prog, start, end);
    TailPlace(prog, start, end, a);
    var i := Last(h, a, end);
    if TailFits(prog, start, end, i) {
      forall b | 0 <= b < |h| && Drawn(prog, h, end, a, b) ensures Step(prog, i, h[b]) {
        EdgeTaken(prog, start, end, a, b);
      }
    } else {
      var b := UntakenEdge(prog, start, end, a);
    }
  }

  // An edge of a block whose last instruction fits is taken by it.
  lemma EdgeTaken(prog: seq<Insn>, start: int, end: int, a: nat, b: nat)
    requires SelfContained(prog, start, end) && a < |HeadsOf(prog, start, end)| && b < |HeadsOf(prog, start, end)|
    requires 0 <= Last(HeadsOf(prog, start, end), a, end) < |prog|
    requires start <= Last(HeadsOf(prog, start, end), a, end) <= end
    requires TailFits(prog, start, end, Last(HeadsOf(prog, start, end), a, end))
    requires Drawn(prog, HeadsOf(prog, start, end), end, a, b)
    ensures var h := HeadsOf(prog, start, end); Step(prog, Last(h, a, end), h[b])
  {
    hide Heads, Drawn, FindHead, IsTarget, Op, Class, PartOf, Sorted, NextNode, Cut, FlowOf;
    var h := HeadsOf(prog, start, end);
    HeadsInside(prog, start, end);
    TailPlace(prog, start, end, a);
    var i := Last(h, a, end);
    Decoded(prog[i]);
    HeadIff(prog, start, end, Dest(prog, i));
    if Leaps(prog[i]) {
      DestBlock(prog, start, end, i);
    }
    DrawnIs(prog, h, end, a, b);
  }

  // An edge that the last instruction of a block does not take.
  lemma UntakenEdge(prog: seq<Insn>, start: int, end: int, a: nat) returns (b: nat)
    requires SelfContained(prog, start, end) && a < |HeadsOf(prog, start, end)|
    requires 0 <= Last(HeadsOf(prog, start, end), a, end) < |prog|
    requires start <= Last(HeadsOf(prog, start, end), a, end) <= end
    requires !TailFits(prog, start, end, Last(HeadsOf(prog, start, end), a, end))
    ensures var h := HeadsOf(prog, start, end);
      b < |h| && Drawn(prog, h, end, a, b) && !Step(prog, Last(h, a, end), h[b])
  {
    hide Heads, Drawn, FindHead, IsTarget, Op, Class, PartOf, Sorted, NextNode, Cut, FlowOf;
    var h := HeadsOf(prog, start, end);
    HeadsInside(prog, start, end);
    TailPlace(prog, start, end, a);
    var i := Last(h, a, end);
    Decoded(prog[i]);
    var d := Dest(prog, i);
    HeadIff(prog, start, end, d);
    var n := FindHead(h, d);
    if Leaps(prog[i]) {
      DestBlock(prog, start, end, i);
    }
    b := if Op(prog[i]) == BPF_EXIT then a + 1 else n.k;
    DrawnIs(prog, h, end, a, b);
  }

  // Every edge between two blocks is taken by a step from the last instruction of the one to the
  // first of the other if and only if the last instructions of all blocks fit.
  lemma EdgesTaken(prog: seq<Insn>, start: int, end: int)
    requires SelfContained(prog, start, end)
    ensures AllTaken(prog, start, end) <==> TailsFit(prog, start, end)
  {
    hide Drawn, Heads, Arcs, Step, TailFits, Cut;
    var h := HeadsOf(prog, start, end);
    HeadsInside(prog, start, end);
    forall a | 0 <= a < |h|
      ensures var i := Last(h, a, end);
        start <= i <= end && Cut(prog, start, end, i)
        && (TailFits(prog, start, end, i) <==> forall b | 0 <= b < |h| && Drawn(prog, h, end, a, b) :: Step(prog, i, h[b]))
    {
      assert h[a] in h;
      TailPlace(prog, start, end, a);
      TailTaken(prog, start, end, a);
    }
    if AllTaken(prog, start, end) {
      forall i | start <= i <= end && Cut(prog, start, end, i) ensures TailFits(prog, start, end, i) {
        BlockFacts(prog, start, end, i);
        assert i == Last(h, PartOf(h, i), end);
      }
    }
  }

  // An edge without a destination: only a call at the end of a block can have one, and it has one if
  // and only if no block starts at its offset.
  lemma MissingEdges(prog: seq<Insn>, start: int, end: int, a: nat)
    requires SelfContained(prog, start, end) && a < |HeadsOf(prog, start, end)|
    requires 0 <= Last(HeadsOf(prog, start, end), a, end) < |prog|
    ensures var h := HeadsOf(prog, start, end); var i := Last(h, a, end);
      (exists arc | arc in Arcs(prog, h, end, a) :: arc.dst == Missing)
      <==> IsJmp(prog[i]) && Op(prog[i]) == BPF_CALL && Dest(prog, i) != start && !IsTarget(prog, start, end + 1, Dest(prog, i))
  {
    hide Heads, IsTarget, FindHead, Op, Class, Sorted;
    var h := HeadsOf(prog, start, end);
    var i := Last(h, a, end);
    HeadsInside(prog, start, end);
    var arcs, d := Arcs(prog, h, end, a), Dest(prog, i);
    HeadIff(prog, start, end, d);
    if Leaps(prog[i]) {
      assert h[a] in h;
      DestBlock(prog, start, end, i);
    } else if IsJmp(prog[i]) && Op(prog[i]) == BPF_CALL {
      assert arcs[1].dst == FindHead(h, d);
    }
  }

  // A call that ends a block is drawn like a branch: here with an edge from its block to itself.
  const CALL_LOOP: seq<Insn> := [Insn(0x85, 0, -1, 1), Insn(0x15, 0, -1, 0), Insn(0x95, 0, 0, 0)]

  lemma CallEdgeNotTaken()
    ensures SelfContained(CALL_LOOP, 0, 2) && JasFit(CALL_LOOP, 0, 2) && !AllTaken(CALL_LOOP, 0, 2)
  {
    hide AllTaken, Heads;
    assert SelfContained(CALL_LOOP, 0, 2);
    EdgesTaken(CALL_LOOP, 0, 2);
    assert Branches(CALL_LOOP[1]) && Dest(CALL_LOOP, 1) == 1;
    assert IsTarget(CALL_LOOP, 0, 3, 1);
    assert Cut(CALL_LOOP, 0, 2, 0) && !TailFits(CALL_LOOP, 0, 2, 0);
  }
}
